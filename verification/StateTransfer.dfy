/** Genesis export and import and the list queries, as loops over a keeper's flat store. They run
    under the infinite meter; each is proved to compute what Genesis specifies. */
module StateTransfer {
  import opened Bytes
  import opened Outcome
  import opened Layout
  import opened Types
  import opened Engine
  import opened Registrations
  import opened Genesis
  import opened Keepers

  // ------------------------------------------------------------------ import

  method InitGenesis(k: Keeper, data: GenesisState) returns (out: Out<()>)
    requires k.Valid()
    modifies k
    ensures k.Valid()
    ensures Res(k.Abs(), out) == Import(k.env, old(k.Abs()), data)
  {
    hide Represents, Create, ImportContract;
    for i := 0 to |data.codes|
      invariant k.Valid()
      invariant ImportCodes(k.env, k.Abs(), data.codes[i..]) == ImportCodes(k.env, old(k.Abs()), data.codes)
    {
      var code := data.codes[i];
      assert data.codes[i..][0] == code && data.codes[i..][1..] == data.codes[i + 1..];
      var newID := k.Create(code.info.creator, code.code, code.info.source, code.info.builder);
      if newID.Err? {
        return Panicked(GenesisCreateFailed);
      } else if newID.Panicked? {
        return Panicked(newID.panic);
      }
      var newInfo :- k.Get(GetCodeKey(newID.value), Code(newID.value));
      if newInfo.None? {
        return Panicked(MissingCode);
      }
      if newInfo.value.code.hash != code.info.hash {
        return Panicked(CodeHashMismatch);
      }
    }
    for i := 0 to |data.contracts|
      invariant k.Valid()
      invariant ImportContracts(k.env, k.Abs(), data.contracts[i..]) == Import(k.env, old(k.Abs()), data)
    {
      assert data.contracts[i..][1..] == data.contracts[i + 1..];
      var _ :- SetContract(k, data.contracts[i]);
    }
    return Ok(());
  }

  /** setContractInfo and setContractState for one contract. */
  method SetContract(k: Keeper, c: GenesisContract) returns (out: Out<()>)
    requires k.Valid()
    modifies k
    ensures k.Valid()
    ensures Res(k.Abs(), out) == ImportContract(k.env, old(k.Abs()), c)
  {
    hide Represents, Write;
    var _ :- k.Set(GetContractAddressKey(c.addr), ContractValue(c.info), Contract(c.addr));
    var prefixStoreKey := GetContractStorePrefixKey(c.addr);
    for i := 0 to |c.state|
      invariant k.Valid()
      invariant ImportState(k.env, k.Abs(), c.addr, c.state[i..]) == ImportContract(k.env, old(k.Abs()), c)
    {
      var model := c.state[i];
      assert c.state[i..][0] == model && c.state[i..][1..] == c.state[i + 1..];
      var _ :- k.Set(prefixStoreKey + model.key, Raw(model.value), Data(c.addr, model.key));
    }
    return Ok(());
  }

  // ------------------------------------------------------------------ export

  method GetNextCodeID(k: Keeper) returns (id: uint64)
    requires k.Valid()
    ensures id == Next(k.reg.codeSeq)
  {
    var bz := Fetch(k.kv, KEY_LAST_CODE_ID);
    assert bz == Lookup(k.reg, LastCode) by {
      assert KEY_LAST_CODE_ID == Encode(LastCode);
    }
    id := 1;
    if bz.Some? {
      Uint64RoundTrip(k.reg.codeSeq.value, []);
      id := BigEndianToUint64(bz.value.raw);
    }
  }

  method GetCodeInfo(k: Keeper, codeID: uint64) returns (info: Option<CodeInfo>)
    requires k.Valid()
    ensures info == if codeID in k.reg.codes then Some(k.reg.codes[codeID]) else None
  {
    var bz := Fetch(k.kv, GetCodeKey(codeID));
    assert bz == Lookup(k.reg, Code(codeID)) by {
      assert GetCodeKey(codeID) == Encode(Code(codeID));
    }
    return if bz.None? then None else Some(bz.value.code);
  }

  /** GetContractState and the loops that read its iterator to the end. */
  method ReadContractState(k: Keeper, addr: bytes) returns (state: seq<Model>)
    requires k.Valid()
    ensures state == ExportState(DataUnder(k.reg, addr))
  {
    hide Represents, IsAscending, RawStore, PrefixStore, DataUnder;
    var store := RawStore(PrefixStore(k.kv, GetContractStorePrefixKey(addr)));
    DataView(k.kv, k.reg, addr);
    var keys := Ascending(store.Keys);
    ghost var all := ExportState(store);
    state := [];
    for i := 0 to |keys|
      invariant state == all[..i]
    {
      assert keys[i] in keys;
      state := state + [Model(keys[i], store[keys[i]])];
    }
  }

  lemma {:induction false} ExportCodesStops(w: World, i: uint64, n: uint64)
    requires 0 < i <= n && ExportCodes(w, i).IsFailure()
    ensures ExportCodes(w, n) == Panicked(MissingCode)
    decreases n
  {
    if i < n {
      ExportCodesStops(w, i, n - 1);
    } else {
      OnlyMissingCode(w, n);
    }
  }

  lemma {:induction false} OnlyMissingCode(w: World, n: uint64)
    ensures ExportCodes(w, n).Ok? || ExportCodes(w, n) == Panicked(MissingCode)
  {
    if n > 0 {
      OnlyMissingCode(w, n - 1);
    }
  }

  method ExportGenesis(k: Keeper) returns (out: Out<GenesisState>)
    requires k.Valid()
    ensures out == Export(k.Abs())
  {
    ghost var w := k.Abs();
    var maxCodeID := GetNextCodeID(k);
    var codes := [];
    var i: uint64 := 1;
    while i < maxCodeID
      invariant ExportCodes(w, if maxCodeID == 0 then 0 else i - 1) == Ok(codes)
      invariant i <= maxCodeID || (maxCodeID == 0 && i == 1)
    {
      var info := GetCodeInfo(k, i);
      if info.None? || info.value.hash !in k.vm {
        ExportCodesStops(w, i, LastID(w.reg));
        return Panicked(MissingCode);
      }
      codes := codes + [GenesisCode(info.value, k.vm[info.value.hash])];
      i := i + 1;
    }
    var contracts := ExportContracts(k);
    return Ok(GenesisState(codes, contracts));
  }

  /** ListContractInfo with a callback that collects everything. */
  method ListContractInfo(k: Keeper) returns (addrs: seq<bytes>, infos: seq<ContractInfo>)
    requires k.Valid()
    ensures addrs == Ascending(k.reg.contracts.Keys)
    ensures |infos| == |addrs|
    ensures forall i :: 0 <= i < |addrs| ==>
              Lookup(k.reg, Contract(addrs[i])) == Some(ContractValue(infos[i]))
  {
    hide Represents, PrefixStore, Lookup, IsAscending;
    var view := PrefixStore(k.kv, CONTRACT_KEY_PREFIX);
    ContractsView(k.kv, k.reg);
    addrs := Ascending(view.Keys);
    infos := [];
    for i := 0 to |addrs|
      invariant |infos| == i
      invariant forall j :: 0 <= j < i ==>
                  Lookup(k.reg, Contract(addrs[j])) == Some(ContractValue(infos[j]))
    {
      assert addrs[i] in addrs;
      ContractAt(k.kv, k.reg, addrs[i]);
      infos := infos + [view[addrs[i]].contract];
    }
  }

  /** The record under one key of the contract region. */
  lemma ContractAt(kv: Flat, reg: Registry, a: bytes)
    requires Represents(kv, reg) && a in PrefixStore(kv, CONTRACT_KEY_PREFIX)
    ensures var v := PrefixStore(kv, CONTRACT_KEY_PREFIX)[a];
            v.ContractValue? && Lookup(reg, Contract(a)) == Some(v)
  {
    hide Represents, PrefixStore;
    ContractRegion(kv, reg, a);
  }

  method ExportContracts(k: Keeper) returns (contracts: seq<GenesisContract>)
    requires k.Valid()
    ensures contracts == ContractsAt(k.reg, Ascending(k.reg.contracts.Keys))
  {
    var addrs, infos := ListContractInfo(k);
    contracts := CollectContracts(k, addrs, infos);
    SameContracts(k.reg, addrs, infos, contracts);
  }

  method CollectContracts(k: Keeper, addrs: seq<bytes>, infos: seq<ContractInfo>) returns (contracts: seq<GenesisContract>)
    requires k.Valid() && |infos| == |addrs| && forall i :: 0 <= i < |addrs| ==> |addrs[i]| == 20
    ensures |contracts| == |addrs|
    ensures forall i :: 0 <= i < |addrs| ==>
              contracts[i] == GenesisContract(addrs[i], infos[i], ExportState(SubStore(k.reg, addrs[i])))
  {
    hide Represents, ExportState, SubStore, DataUnder;
    contracts := [];
    for i := 0 to |addrs|
      invariant |contracts| == i
      invariant forall j :: 0 <= j < i ==>
                  contracts[j] == GenesisContract(addrs[j], infos[j], ExportState(SubStore(k.reg, addrs[j])))
    {
      var state := ReadContractState(k, addrs[i]);
      DataUnderAddress(k.reg, addrs[i]);
      contracts := contracts + [GenesisContract(addrs[i], infos[i], state)];
    }
  }

  lemma SameContracts(reg: Registry, addrs: seq<bytes>, infos: seq<ContractInfo>, contracts: seq<GenesisContract>)
    requires |infos| == |addrs| == |contracts|
    requires forall i :: 0 <= i < |addrs| ==> Lookup(reg, Contract(addrs[i])) == Some(ContractValue(infos[i]))
    requires forall i :: 0 <= i < |addrs| ==>
               |addrs[i]| == 20 &&
               contracts[i] == GenesisContract(addrs[i], infos[i], ExportState(SubStore(reg, addrs[i])))
    ensures (forall a :: a in addrs ==> |a| == 20 && a in reg.contracts) && contracts == ContractsAt(reg, addrs)
  {
    hide ExportState, SubStore;
    forall a | a in addrs ensures |a| == 20 && a in reg.contracts {
      var i :| 0 <= i < |addrs| && addrs[i] == a;
      assert Lookup(reg, Contract(addrs[i])).Some?;
    }
  }

  // ------------------------------------------------------------------ queries

  datatype ListCodeResponse = ListCodeResponse(id: uint64, creator: bytes, codeHash: bytes)

  /** queryCodeList: counts up until an id has no entry. */
  method QueryCodeList(k: Keeper) returns (infos: seq<ListCodeResponse>)
    requires k.Valid() && CodesContiguous(k.reg)
    ensures |infos| == LastID(k.reg)
    ensures forall i :: 0 <= i < |infos| ==>
              i + 1 in k.reg.codes
              && infos[i] == ListCodeResponse(i + 1, k.reg.codes[i + 1].creator, k.reg.codes[i + 1].hash)
  {
    infos := [];
    var i: uint64 := 0;
    while true
      invariant |infos| == i <= LastID(k.reg)
      invariant forall j :: 0 <= j < i ==>
                  j + 1 in k.reg.codes
                  && infos[j] == ListCodeResponse(j + 1, k.reg.codes[j + 1].creator, k.reg.codes[j + 1].hash)
      decreases LastID(k.reg) - i
    {
      hide Represents;
      i := i + 1;
      var res := GetCodeInfo(k, i);
      if res.None? {
        break;
      }
      infos := infos + [ListCodeResponse(i, res.value.creator, res.value.hash)];
    }
  }

  /** queryContractList: all contract addresses, ascending. */
  method QueryContractList(k: Keeper) returns (addrs: seq<bytes>)
    requires k.Valid()
    ensures addrs == Ascending(k.reg.contracts.Keys)
  {
    var keys, _ := ListContractInfo(k);
    addrs := [];
    for i := 0 to |keys|
      invariant addrs == keys[..i]
    {
      addrs := addrs + [keys[i]];
    }
  }

  function RawQuery(sub: map<bytes, bytes>, key: Option<bytes>): seq<Model> {
    if key.None? || key.value !in sub then [] else [Model(key.value, sub[key.value])]
  }

  method QueryRaw(k: Keeper, addr: bytes, key: Option<bytes>) returns (result: seq<Model>)
    requires k.Valid()
    ensures result == RawQuery(DataUnder(k.reg, addr), key)
  {
    hide Represents, PrefixStore, DataUnder;
    if key.None? {
      return [];
    }
    var val := Fetch(PrefixStore(k.kv, GetContractStorePrefixKey(addr)), key.value);
    DataAt(k.kv, k.reg, addr, key.value);
    if val.Some? {
      return [Model(key.value, val.value.data)];
    }
    return [];
  }

  // ------------------------------------------------------------------ main results

  /** A raw query answers with exactly the pairs of the full listing that have its key. */
  lemma RawQueryAgreesWithListing(sub: map<bytes, bytes>, key: bytes, m: Model)
    ensures m in RawQuery(sub, Some(key)) <==> m in ExportState(sub) && m.key == key
    ensures |RawQuery(sub, Some(key))| <= 1
  {
    hide IsAscending;
    var ks, all := Ascending(sub.Keys), ExportState(sub);
    if m in RawQuery(sub, Some(key)) {
      var i :| 0 <= i < |ks| && ks[i] == key;
      assert all[i] == m;
    }
    if m in all && m.key == key {
      var i :| 0 <= i < |all| && all[i] == m;
      assert ks[i] in ks;
    }
  }

  /** The open-ended listing and the counted export enumerate the same codes in the same order. */
  lemma EnumerationsAgree(env: Env, w: World, infos: seq<ListCodeResponse>)
    requires Inv(env, w)
    requires |infos| == LastID(w.reg)
    requires forall i :: 0 <= i < |infos| ==>
               i + 1 in w.reg.codes
               && infos[i] == ListCodeResponse(i + 1, w.reg.codes[i + 1].creator, w.reg.codes[i + 1].hash)
    ensures Export(w).Ok? && |Export(w).value.codes| == |infos|
    ensures forall i :: 0 <= i < |infos| ==>
              infos[i].creator == Export(w).value.codes[i].info.creator
              && infos[i].codeHash == Export(w).value.codes[i].info.hash
              && HoldsCode(env, w.vm, infos[i].codeHash) && Export(w).value.codes[i].code == w.vm[infos[i].codeHash]
  {
    hide HoldsCode, CodesContiguous, ContractsBacked;
    ExportCodesSucceeds(env, w, LastID(w.reg));
    forall i | 0 <= i < |infos|
      ensures ExportCode(w, i + 1) == Ok(Export(w).value.codes[i]) && HoldsCode(env, w.vm, infos[i].codeHash)
    {
    }
  }
}
