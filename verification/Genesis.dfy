/** Exporting and importing the wasm state: genesis.go as functions, and why one undoes the other. */
module Genesis {
  import opened Bytes
  import opened Outcome
  import opened Layout
  import opened Types
  import opened Engine
  import opened Registrations

  datatype Model = Model(key: bytes, value: bytes)
  datatype GenesisCode = GenesisCode(info: CodeInfo, code: bytes)
  datatype GenesisContract = GenesisContract(addr: address, info: ContractInfo, state: seq<Model>)
  datatype GenesisState = GenesisState(codes: seq<GenesisCode>, contracts: seq<GenesisContract>)

  // ------------------------------------------------------------------ export

  /** GetCodeInfo and GetByteCode; a missing entry or missing code is a panic. */
  function ExportCode(w: World, id: uint64): Out<GenesisCode> {
    if id !in w.reg.codes || w.reg.codes[id].hash !in w.vm then Panicked(MissingCode)
    else Ok(GenesisCode(w.reg.codes[id], w.vm[w.reg.codes[id].hash]))
  }

  /** The codes 1..n, in order. */
  function ExportCodes(w: World, n: uint64): (r: Out<seq<GenesisCode>>)
    ensures r.Ok? ==> |r.value| == n
    ensures r.Ok? ==> forall i :: 0 <= i < n ==> ExportCode(w, i + 1) == Ok(r.value[i])
  {
    if n == 0 then Ok([])
    else
      var codes :- ExportCodes(w, n - 1);
      var code :- ExportCode(w, n);
      Ok(codes + [code])
  }

  /** All pairs of a contract's store, in ascending key order. */
  function ExportState(sub: map<bytes, bytes>): seq<Model> {
    Models(Ascending(sub.Keys), sub)
  }

  function Models(ks: seq<bytes>, sub: map<bytes, bytes>): (r: seq<Model>)
    requires forall k :: k in ks ==> k in sub
    ensures |r| == |ks| && forall i :: 0 <= i < |ks| ==> r[i] == Model(ks[i], sub[ks[i]])
  {
    seq(|ks|, i requires 0 <= i < |ks| => Model(ks[i], sub[ks[i]]))
  }

  function ExportContract(reg: Registry, a: bytes): GenesisContract
    requires |a| == 20 && a in reg.contracts
  {
    GenesisContract(a, reg.contracts[a], ExportState(SubStore(reg, a)))
  }

  function ContractsAt(reg: Registry, addrs: seq<bytes>): (r: seq<GenesisContract>)
    requires forall a :: a in addrs ==> |a| == 20 && a in reg.contracts
    ensures |r| == |addrs|
    ensures forall i :: 0 <= i < |addrs| ==> r[i] == ExportContract(reg, addrs[i])
  {
    seq(|addrs|, i requires 0 <= i < |addrs| => ExportContract(reg, addrs[i]))
  }

  function Export(w: World): Out<GenesisState> {
    var codes :- ExportCodes(w, LastID(w.reg));
    Ok(GenesisState(codes, ContractsAt(w.reg, Ascending(w.reg.contracts.Keys))))
  }

  /** The loop bound of the export: the counted loop runs while the id is below the next one. */
  function LastID(reg: Registry): uint64 {
    if Next(reg.codeSeq) == 0 then 0 else Next(reg.codeSeq) - 1
  }

  // ------------------------------------------------------------------ import

  function ImportCode(env: Env, w: World, c: GenesisCode): Res<()> {
    var created := Create(env, w, c.info.creator, c.code, c.info.source, c.info.builder);
    match created.out
    case Err(_) => Res(created.w, Panicked(GenesisCreateFailed))
    case Panicked(p) => Res(created.w, Panicked(p))
    case Ok(newID) =>
      var (w1, info) :- Read(env, created.w, Code(newID));
      if info.None? then Res(w1, Panicked(MissingCode))
      else if info.value.code.hash != c.info.hash then Res(w1, Panicked(CodeHashMismatch))
      else Res(w1, Ok(()))
  }

  function ImportCodes(env: Env, w: World, codes: seq<GenesisCode>): Res<()>
    decreases |codes|
  {
    if codes == [] then Res(w, Ok(()))
    else
      var (w1, _) :- ImportCode(env, w, codes[0]);
      ImportCodes(env, w1, codes[1..])
  }

  function ImportState(env: Env, w: World, a: address, models: seq<Model>): Res<()>
    decreases |models|
  {
    if models == [] then Res(w, Ok(()))
    else
      var (w1, _) :- Write(env, w, Data(a, models[0].key), Raw(models[0].value));
      ImportState(env, w1, a, models[1..])
  }

  function ImportContract(env: Env, w: World, c: GenesisContract): Res<()> {
    var (w1, _) :- Write(env, w, Contract(c.addr), ContractValue(c.info));
    ImportState(env, w1, c.addr, c.state)
  }

  function ImportContracts(env: Env, w: World, contracts: seq<GenesisContract>): Res<()>
    decreases |contracts|
  {
    if contracts == [] then Res(w, Ok(()))
    else
      var (w1, _) :- ImportContract(env, w, contracts[0]);
      ImportContracts(env, w1, contracts[1..])
  }

  function Import(env: Env, w: World, g: GenesisState): Res<()> {
    var (w1, _) :- ImportCodes(env, w, g.codes);
    ImportContracts(env, w1, g.contracts)
  }

  // ------------------------------------------------------------------ codes come back

  lemma {:induction false} ExportCodesSucceeds(env: Env, w: World, n: uint64)
    requires Inv(env, w) && n <= LastID(w.reg)
    ensures ExportCodes(w, n).Ok?
  {
    if n > 0 {
      ExportCodesSucceeds(env, w, n - 1);
      assert HoldsCode(env, w.vm, w.reg.codes[n].hash);
    }
  }

  function CodesUpTo(codes: map<uint64, CodeInfo>, n: int): map<uint64, CodeInfo> {
    map id | id in codes && id <= n :: codes[id]
  }

  /** `v` holds the first `n` codes of `w` and nothing else. */
  ghost predicate CodesRestored(w: World, v: World, n: uint64) {
    && v.meter.Unmetered?
    && v.reg == EMPTY.(codes := CodesUpTo(w.reg.codes, n), codeSeq := if n == 0 then None else Some((n + 1) % TWO_64))
    && (forall id :: id in w.reg.codes && id <= n ==>
          w.reg.codes[id].hash in v.vm && w.reg.codes[id].hash in w.vm && v.vm[w.reg.codes[id].hash] == w.vm[w.reg.codes[id].hash])
  }

  lemma UnmeteredRead(env: Env, v: World, s: Slot)
    requires v.meter.Unmetered?
    ensures Read(env, v, s) == Res(v, Ok(Lookup(v.reg, s)))
  {
    hide Lookup, Encode;
  }

  lemma UnmeteredWrite(env: Env, v: World, s: Slot, value: Value)
    requires v.meter.Unmetered? && Fits(s, value)
    ensures Write(env, v, s, value) == Res(v.(reg := Put(v.reg, s, value)), Ok(()))
  {
    hide Put, Encode, Fits;
  }

  lemma UnmeteredIncrement(env: Env, v: World)
    requires v.meter.Unmetered?
    ensures var id := Next(v.reg.codeSeq);
            AutoIncrementID(env, v, LastCode) == Res(v.(reg := v.reg.(codeSeq := Some((id + 1) % TWO_64))), Ok(id))
  {
    hide Read, Write, Encode;
    var id := Next(v.reg.codeSeq);
    UnmeteredRead(env, v, LastCode);
    UnmeteredWrite(env, v, LastCode, Counter(Uint64ToBigEndian((id + 1) % TWO_64)));
    if v.reg.codeSeq.Some? {
      Uint64RoundTrip(v.reg.codeSeq.value, []);
    }
    Uint64RoundTrip((id + 1) % TWO_64, []);
  }

  /** Without a meter, storing accepted code always succeeds and takes the next id. */
  lemma UnmeteredCreate(env: Env, v: World, creator: bytes, upload: bytes, source: string, builder: string, code: bytes)
    requires v.meter.Unmetered? && Uncompress(env, upload) == Some(code) && Compiles(env, code)
    ensures var id := Next(v.reg.codeSeq);
            var hash := env.codeHash(code);
            Create(env, v, creator, upload, source, builder)
            == Res(v.(vm := v.vm[hash := code],
                      reg := v.reg.(codeSeq := Some((id + 1) % TWO_64),
                                    codes := v.reg.codes[id := CodeInfo(hash, creator, source, builder)])), Ok(id))
  {
    hide AutoIncrementID, Write, Encode, Compiles, Uncompress;
    var hash := env.codeHash(code);
    var v0 := v.(vm := v.vm[hash := code]);
    UnmeteredIncrement(env, v0);
    var drawn := AutoIncrementID(env, v0, LastCode);
    UnmeteredWrite(env, drawn.w, Code(drawn.out.value), CodeValue(CodeInfo(hash, creator, source, builder)));
  }

  /** What importing one code does: it takes the next id, and then its hash is compared. */
  lemma UnmeteredImportCode(env: Env, v: World, c: GenesisCode, code: bytes)
    requires v.meter.Unmetered? && Uncompress(env, c.code) == Some(code) && Compiles(env, code)
    ensures var id := Next(v.reg.codeSeq);
            var info := c.info.(hash := env.codeHash(code));
            ImportCode(env, v, c)
            == Res(v.(vm := v.vm[info.hash := code],
                      reg := v.reg.(codeSeq := Some((id + 1) % TWO_64), codes := v.reg.codes[id := info])),
                   if info.hash == c.info.hash then Ok(()) else Panicked(CodeHashMismatch))
  {
    hide Create, Read, Compiles, Uncompress, Encode;
    UnmeteredCreate(env, v, c.info.creator, c.code, c.info.source, c.info.builder, code);
    UnmeteredRead(env, Create(env, v, c.info.creator, c.code, c.info.source, c.info.builder).w, Code(Next(v.reg.codeSeq)));
  }

  /** Importing the next code gives it the id it had, with the hash it had. */
  lemma ImportCodeRestores(env: Env, w: World, v: World, n: uint64)
    requires Inv(env, w) && n < LastID(w.reg) && CodesRestored(w, v, n)
    requires ExportCode(w, n + 1).Ok?
    ensures var r := ImportCode(env, v, ExportCode(w, n + 1).value);
            r.out.Ok? && CodesRestored(w, r.w, n + 1) && r.w.bank == v.bank && r.w.log == v.log
  {
    hide Compiles, Uncompress, ImportCode, ContractsBacked;
    var id: uint64 := n + 1;
    assert HoldsCode(env, w.vm, w.reg.codes[id].hash);
    var c := ExportCode(w, id).value;
    CompiledPassesUncompress(env, c.code);
    UnmeteredImportCode(env, v, c, c.code);
    assert v.reg.codes[id := w.reg.codes[id]] == CodesUpTo(w.reg.codes, id);
  }

  lemma {:induction false} ImportCodesRestores(env: Env, w: World, v: World, n: uint64, codes: seq<GenesisCode>)
    requires Inv(env, w) && n <= LastID(w.reg) && CodesRestored(w, v, n)
    requires |codes| == LastID(w.reg) - n
    requires forall i :: 0 <= i < |codes| ==> ExportCode(w, n + i + 1) == Ok(codes[i])
    ensures var r := ImportCodes(env, v, codes);
            r.out.Ok? && CodesRestored(w, r.w, LastID(w.reg)) && r.w.bank == v.bank && r.w.log == v.log
    decreases |codes|
  {
    hide CodesRestored, Inv, ExportCode, ImportCode;
    if codes != [] {
      assert ExportCode(w, n + 0 + 1) == Ok(codes[0]);
      ImportCodeRestores(env, w, v, n);
      var v1 := ImportCode(env, v, codes[0]).w;
      forall i | 0 <= i < |codes| - 1 ensures ExportCode(w, n + 1 + i + 1) == Ok(codes[1..][i]) {
        assert ExportCode(w, n + (i + 1) + 1) == Ok(codes[i + 1]);
      }
      ImportCodesRestores(env, w, v1, n + 1, codes[1..]);
    }
  }

  // ------------------------------------------------------------------ contracts come back

  lemma PutData(reg: Registry, a: address, k: bytes, x: bytes)
    ensures var later := Put(reg, Data(a, k), Raw(x));
            && later == reg.(data := later.data)
            && SubStore(later, a) == SubStore(reg, a)[k := x]
            && forall b: address :: b != a ==> SubStore(later, b) == SubStore(reg, b)
  {
  }

  function Pairs(ks: seq<bytes>, sub: map<bytes, bytes>): map<bytes, bytes>
    requires forall k :: k in ks ==> k in sub
  {
    map k | k in ks :: sub[k]
  }

  lemma PairsCons(ks: seq<bytes>, sub: map<bytes, bytes>, m: map<bytes, bytes>)
    requires ks != [] && forall k :: k in ks ==> k in sub
    ensures m[ks[0] := sub[ks[0]]] + Pairs(ks[1..], sub) == m + Pairs(ks, sub)
  {
    assert forall k :: k in ks <==> k == ks[0] || k in ks[1..];
  }

  lemma PairsAll(sub: map<bytes, bytes>)
    ensures map[] + Pairs(Ascending(sub.Keys), sub) == sub
  {
    hide IsAscending;
  }

  /** `v` with `added` written over the store of `a`. */
  ghost predicate DataAdded(v: World, u: World, a: address, added: map<bytes, bytes>) {
    && u == v.(reg := v.reg.(data := u.reg.data))
    && SubStore(u.reg, a) == SubStore(v.reg, a) + added
    && (forall b: address :: b != a ==> SubStore(u.reg, b) == SubStore(v.reg, b))
  }

  lemma {:induction false} ImportStateRestores(env: Env, v: World, a: address, ks: seq<bytes>, sub: map<bytes, bytes>)
    requires v.meter.Unmetered? && forall k :: k in ks ==> k in sub
    ensures var r := ImportState(env, v, a, Models(ks, sub));
            r.out.Ok? && DataAdded(v, r.w, a, Pairs(ks, sub))
    decreases |ks|
  {
    hide Encode, Write, Put, SubStore, Pairs;
    if ks == [] {
      assert Pairs(ks, sub) == map[] by {
        PairsNone(ks, sub);
      }
    } else {
      assert Models(ks, sub)[1..] == Models(ks[1..], sub);
      UnmeteredWrite(env, v, Data(a, ks[0]), Raw(sub[ks[0]]));
      PutData(v.reg, a, ks[0], sub[ks[0]]);
      var v1 := Write(env, v, Data(a, ks[0]), Raw(sub[ks[0]])).w;
      ImportStateRestores(env, v1, a, ks[1..], sub);
      PairsCons(ks, sub, SubStore(v.reg, a));
    }
  }

  lemma PairsNone(ks: seq<bytes>, sub: map<bytes, bytes>)
    requires ks == []
    ensures Pairs(ks, sub) == map[]
  {
  }

  /** `v` with the entry and the pairs that contract `a` has in `w`. */
  ghost predicate ContractRestored(w: World, v: World, u: World, a: address)
    requires a in w.reg.contracts
  {
    && u == v.(reg := v.reg.(data := u.reg.data, contracts := v.reg.contracts[a := w.reg.contracts[a]]))
    && SubStore(u.reg, a) == SubStore(w.reg, a)
    && (forall b: address :: b != a ==> SubStore(u.reg, b) == SubStore(v.reg, b))
  }

  /** Importing one exported contract restores its entry and all its pairs. */
  lemma ImportContractRestores(env: Env, w: World, v: World, a: address)
    requires v.meter.Unmetered? && a in w.reg.contracts
    requires SubStore(v.reg, a) == map[]
    ensures var r := ImportContract(env, v, ExportContract(w.reg, a));
            r.out.Ok? && ContractRestored(w, v, r.w, a)
  {
    hide Encode, ImportState, Write, Pairs, Models, SubStore, IsAscending;
    UnmeteredWrite(env, v, Contract(a), ContractValue(w.reg.contracts[a]));
    var v1 := Write(env, v, Contract(a), ContractValue(w.reg.contracts[a])).w;
    SameData(v.reg, v1.reg);
    var sub := SubStore(w.reg, a);
    ImportStateRestores(env, v1, a, Ascending(sub.Keys), sub);
    PairsAll(sub);
  }

  function Entries(reg: Registry, addrs: seq<bytes>): map<address, ContractInfo> {
    map a: address | a in reg.contracts && a in addrs :: reg.contracts[a]
  }

  lemma EntriesAll(reg: Registry)
    ensures map[] + Entries(reg, Ascending(reg.contracts.Keys)) == reg.contracts
  {
    hide IsAscending;
  }

  /** `v` with the entries and pairs that the contracts at `addrs` have in `w`. */
  ghost predicate ContractsRestored(w: World, v: World, u: World, addrs: seq<bytes>) {
    && u == v.(reg := v.reg.(data := u.reg.data, contracts := u.reg.contracts))
    && u.reg.contracts == v.reg.contracts + Entries(w.reg, addrs)
    && (forall a: address :: SubStore(u.reg, a) == if a in addrs then SubStore(w.reg, a) else SubStore(v.reg, a))
  }

  lemma ContractsRestoredCons(w: World, v: World, v1: World, u: World, addrs: seq<bytes>)
    requires addrs != [] && |addrs[0]| == 20 && addrs[0] in w.reg.contracts
    requires ContractRestored(w, v, v1, addrs[0]) && ContractsRestored(w, v1, u, addrs[1..])
    requires addrs[0] !in addrs[1..]
    ensures ContractsRestored(w, v, u, addrs)
  {
    hide SubStore;
    assert forall a :: a in addrs <==> a == addrs[0] || a in addrs[1..];
  }

  lemma AscendingTail(addrs: seq<bytes>)
    requires addrs != [] && IsAscending(addrs)
    ensures IsAscending(addrs[1..]) && addrs[0] !in addrs[1..]
  {
    LessIrreflexive(addrs[0]);
  }

  lemma {:induction false} ImportContractsRestores(env: Env, w: World, v: World, addrs: seq<bytes>)
    requires v.meter.Unmetered? && forall a :: a in addrs ==> |a| == 20 && a in w.reg.contracts
    requires IsAscending(addrs)
    requires forall a: address :: a in addrs ==> SubStore(v.reg, a) == map[]
    ensures var r := ImportContracts(env, v, ContractsAt(w.reg, addrs));
            r.out.Ok? && ContractsRestored(w, v, r.w, addrs)
    decreases |addrs|
  {
    hide ImportContract, ExportContract, SubStore, IsAscending;
    if addrs != [] {
      var rest := addrs[1..];
      assert ContractsAt(w.reg, addrs)[1..] == ContractsAt(w.reg, rest);
      assert addrs[0] in addrs;
      AscendingTail(addrs);
      ImportContractRestores(env, w, v, addrs[0]);
      var v1 := ImportContract(env, v, ExportContract(w.reg, addrs[0])).w;
      forall a: address | a in rest ensures a in addrs && SubStore(v1.reg, a) == map[] {
      }
      ImportContractsRestores(env, w, v1, rest);
      ContractsRestoredCons(w, v, v1, ImportContracts(env, v1, ContractsAt(w.reg, rest)).w, addrs);
    }
  }

  // ------------------------------------------------------------------ main results

  /** Everything but the instance counter and the stores of unregistered addresses. */
  ghost predicate Restored(w: World, v: World) {
    && v.reg.codes == w.reg.codes && v.reg.codeSeq == w.reg.codeSeq
    && v.reg.contracts == w.reg.contracts
    && v.reg.instanceSeq == None
    && (forall a: address :: SubStore(v.reg, a) == if a in w.reg.contracts then SubStore(w.reg, a) else map[])
    && (forall id :: id in w.reg.codes ==>
          w.reg.codes[id].hash in v.vm && w.reg.codes[id].hash in w.vm
          && v.vm[w.reg.codes[id].hash] == w.vm[w.reg.codes[id].hash])
  }

  /** Export then import: on an empty wasm store this never panics (the hash check included) and
      rebuilds every code under its id, the code counter, every contract and all its pairs. */
  lemma ImportUndoesExport(env: Env, w: World, blank: World)
    requires Inv(env, w) && blank.meter.Unmetered? && blank.reg == EMPTY
    ensures Export(w).Ok?
    ensures var r := Import(env, blank, Export(w).value);
            r.out.Ok? && Restored(w, r.w) && r.w == blank.(reg := r.w.reg, vm := r.w.vm)
  {
    hide ImportCodes, ImportContracts, ExportCode, HoldsCode, IsAscending, ExportContract, ExportCodes;
    ExportCodesSucceeds(env, w, LastID(w.reg));
    var g := Export(w).value;
    assert CodesRestored(w, blank, 0) by {
      assert CodesUpTo(w.reg.codes, 0) == map[];
    }
    ImportCodesRestores(env, w, blank, 0, g.codes);
    var v := ImportCodes(env, blank, g.codes).w;
    ImportContractsRestores(env, w, v, Ascending(w.reg.contracts.Keys));
    AllRestored(env, w, v, Import(env, blank, g).w);
  }

  lemma AllCodes(reg: Registry)
    requires CodesContiguous(reg)
    ensures CodesUpTo(reg.codes, LastID(reg)) == reg.codes
    ensures reg.codeSeq == if LastID(reg) == 0 then None else Some((LastID(reg) + 1) % TWO_64)
  {
  }

  lemma AllContracts(w: World, v: World, u: World)
    requires ContractsRestored(w, v, u, Ascending(w.reg.contracts.Keys))
    requires v.reg.contracts == map[] && v.reg.data == map[]
    ensures u == v.(reg := v.reg.(data := u.reg.data, contracts := u.reg.contracts))
    ensures u.reg.contracts == w.reg.contracts
    ensures forall a: address :: SubStore(u.reg, a) == if a in w.reg.contracts then SubStore(w.reg, a) else map[]
  {
    hide IsAscending, Entries;
    EntriesAll(w.reg);
    var addrs := Ascending(w.reg.contracts.Keys);
    forall a: address ensures SubStore(u.reg, a) == if a in w.reg.contracts then SubStore(w.reg, a) else map[] {
      assert a in addrs <==> a in w.reg.contracts;
      assert SubStore(v.reg, a) == map[];
    }
  }

  lemma AllRestored(env: Env, w: World, v: World, u: World)
    requires Inv(env, w) && CodesRestored(w, v, LastID(w.reg)) && ContractsRestored(w, v, u, Ascending(w.reg.contracts.Keys))
    ensures Restored(w, u) && u.bank == v.bank && u.meter.Unmetered?
  {
    hide ContractsRestored, CodesUpTo, SubStore, CodesHeld, ContractsBacked, IsAscending;
    AllCodes(w.reg);
    AllContracts(w, v, u);
  }

  lemma {:induction false} ExportCodesAgree(w: World, v: World, n: uint64)
    requires forall id: uint64 :: 1 <= id <= n ==> ExportCode(w, id) == ExportCode(v, id)
    ensures ExportCodes(w, n) == ExportCodes(v, n)
  {
    if n > 0 {
      ExportCodesAgree(w, v, n - 1);
    }
  }

  /** What is exported depends only on what an import restores. */
  lemma RestoredExportsTheSame(env: Env, w: World, v: World)
    requires Restored(w, v) && Inv(env, w)
    ensures Export(v) == Export(w)
  {
    hide HoldsCode, IsAscending, ExportState, SubStore, CodesContiguous, ContractsBacked;
    ExportCodesAgree(w, v, LastID(w.reg));
    var addrs := Ascending(w.reg.contracts.Keys);
    forall a: address | a in w.reg.contracts ensures ExportContract(v.reg, a) == ExportContract(w.reg, a) {
    }
    forall i | 0 <= i < |addrs| ensures |addrs[i]| == 20 && addrs[i] in w.reg.contracts {
      assert addrs[i] in addrs;
    }
    assert ContractsAt(v.reg, addrs) == ContractsAt(w.reg, addrs);
  }

  /** Export is a fixed point: exporting the imported state gives the same genesis state, with
      codes, contracts and pairs in the same order. */
  lemma ExportIsFixedPoint(env: Env, w: World, blank: World)
    requires Inv(env, w) && blank.meter.Unmetered? && blank.reg == EMPTY
    ensures Export(w).Ok? && Export(Import(env, blank, Export(w).value).w) == Export(w)
  {
    hide Inv, Restored, Export, Import;
    ImportUndoesExport(env, w, blank);
    RestoredExportsTheSame(env, w, Import(env, blank, Export(w).value).w);
  }

  /** The import is complete exactly when no instance was ever drawn and no pair lies outside the
      registered contracts' stores. */
  lemma ImportIsCompleteIff(env: Env, w: World, blank: World)
    requires Inv(env, w) && blank.meter.Unmetered? && blank.reg == EMPTY
    ensures Export(w).Ok?
    ensures (forall s: Slot :: Lookup(Import(env, blank, Export(w).value).w.reg, s) == Lookup(w.reg, s))
            <==> w.reg.instanceSeq == None && forall a: address :: a !in w.reg.contracts ==> SubStore(w.reg, a) == map[]
  {
    hide Inv, Export, Import;
    ImportUndoesExport(env, w, blank);
    RestoredIsCompleteIff(w, Import(env, blank, Export(w).value).w);
  }

  lemma RestoredIsCompleteIff(w: World, v: World)
    requires Restored(w, v)
    ensures (forall s: Slot :: Lookup(v.reg, s) == Lookup(w.reg, s))
            <==> w.reg.instanceSeq == None && forall a: address :: a !in w.reg.contracts ==> SubStore(w.reg, a) == map[]
  {
    if forall s: Slot :: Lookup(v.reg, s) == Lookup(w.reg, s) {
      assert Lookup(v.reg, LastInstance) == Lookup(w.reg, LastInstance);
      forall a: address | a !in w.reg.contracts ensures SubStore(w.reg, a) == map[] {
        forall k ensures k !in SubStore(w.reg, a) {
          assert Lookup(v.reg, Data(a, k)) == Lookup(w.reg, Data(a, k));
        }
      }
    }
  }

  /** When only contracts have data, everything but the instance counter comes back. */
  lemma RestoredButTheCounter(w: World, v: World)
    requires Restored(w, v) && forall a: address :: a !in w.reg.contracts ==> SubStore(w.reg, a) == map[]
    ensures forall s: Slot :: s != LastInstance ==> Lookup(v.reg, s) == Lookup(w.reg, s)
  {
  }

  /** The invariant also holds after an import, provided the accounts were created first. */
  lemma ImportedStateIsSound(env: Env, w: World, blank: World)
    requires Inv(env, w) && blank.meter.Unmetered? && blank.reg == EMPTY
    requires w.reg.contracts.Keys <= blank.bank.Keys
    ensures Export(w).Ok? && Inv(env, Import(env, blank, Export(w).value).w)
  {
    hide Export, Import;
    ImportUndoesExport(env, w, blank);
    var v := Import(env, blank, Export(w).value).w;
    forall id | id in v.reg.codes ensures HoldsCode(env, v.vm, v.reg.codes[id].hash) {
      assert HoldsCode(env, w.vm, w.reg.codes[id].hash);
    }
  }
}
