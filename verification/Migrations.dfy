/** What an import of any genesis state does, and what an export of any state holds, entry by entry. */
module Migrations {
  import opened Bytes
  import opened Outcome
  import opened Layout
  import opened Types
  import opened Engine
  import opened Lifecycle
  import opened Answers
  import opened Genesis

  // ------------------------------------------------------------------ importing codes

  /** The code can be stored. */
  ghost predicate HasWasm(env: Env, c: GenesisCode) {
    exists code :: Contains(env, c.code, code) && IsWasm(env, code)
  }

  /** It can be stored and has the recorded hash. */
  ghost predicate IsImportable(env: Env, c: GenesisCode) {
    exists code :: Contains(env, c.code, code) && IsWasm(env, code) && env.codeHash(code) == c.info.hash
  }

  lemma OneContent(env: Env, c: GenesisCode)
    ensures forall x, y :: Contains(env, c.code, x) && Contains(env, c.code, y) ==> x == y
  {
  }

  /** Importing one code: a panic if it cannot be stored, the next id if it can, and a panic after
      that if its hash is not the recorded one. */
  lemma ImportCodeEnds(env: Env, v: World, c: GenesisCode)
    requires v.meter.Unmetered?
    ensures var r := ImportCode(env, v, c);
            && (!HasWasm(env, c) ==> r == Res(v, Panicked(GenesisCreateFailed)))
            && (HasWasm(env, c) && !IsImportable(env, c) ==> r.out == Panicked(CodeHashMismatch))
            && (IsImportable(env, c) ==>
                  && r.out == Ok(())
                  && r.w == v.(vm := r.w.vm, reg := v.reg.(codeSeq := Advanced(v.reg.codeSeq, 1),
                                                           codes := v.reg.codes[Next(v.reg.codeSeq) := c.info]))
                  && (forall code :: Contains(env, c.code, code) ==> r.w.vm == v.vm[c.info.hash := code]))
  {
    hide ImportCode, Uncompress, Compiles, Contains, IsWasm;
    OneContent(env, c);
    CreateFailsIff(env, v, c.info.creator, c.code, c.info.source, c.info.builder);
    if code :| Contains(env, c.code, code) && IsWasm(env, code) {
      UncompressIff(env, c.code, code);
      CompilesIff(env, code);
      UnmeteredImportCode(env, v, c, code);
    } else {
      FailedCreateEndsImport(env, v, c);
    }
  }

  lemma FailedCreateEndsImport(env: Env, v: World, c: GenesisCode)
    requires Create(env, v, c.info.creator, c.code, c.info.source, c.info.builder).out == Err(CreateFailed)
    ensures ImportCode(env, v, c)
            == Res(Create(env, v, c.info.creator, c.code, c.info.source, c.info.builder).w, Panicked(GenesisCreateFailed))
  {
    hide Create;
  }

  /** How far after `first` an id comes, in uint64 arithmetic. */
  function Offset(first: uint64, id: uint64): uint64 {
    (id - first) % TWO_64
  }

  lemma OffsetNext(first: uint64, id: uint64)
    ensures Offset(first, id) == 0 <==> id == first
    ensures Offset((first + 1) % TWO_64, id) == if id == first then TWO_64 - 1 else Offset(first, id) - 1
  {
  }

  /** Importing all codes succeeds exactly if each can be stored and has its recorded hash. They
      take the ids from the next one on, in order. If one fails, the first that does decides how. */
  lemma {:induction false} ImportCodesEnds(env: Env, v: World, codes: seq<GenesisCode>)
    requires v.meter.Unmetered?
    ensures var r, first := ImportCodes(env, v, codes), Next(v.reg.codeSeq);
            && (r.out.Ok? <==> forall i :: 0 <= i < |codes| ==> IsImportable(env, codes[i]))
            && (!r.out.Ok? ==>
                  exists i :: && 0 <= i < |codes| && !IsImportable(env, codes[i])
                              && (forall j :: 0 <= j < i ==> IsImportable(env, codes[j]))
                              && r.out == Panicked(if HasWasm(env, codes[i]) then CodeHashMismatch else GenesisCreateFailed))
            && (r.out.Ok? ==>
                  && r.w == v.(vm := r.w.vm, reg := v.reg.(codeSeq := Advanced(v.reg.codeSeq, |codes|), codes := r.w.reg.codes))
                  && (|codes| <= TWO_64 ==> forall id ::
                        FoundCode(r.w.reg, id) == if Offset(first, id) < |codes| then Some(codes[Offset(first, id)].info)
                                                  else FoundCode(v.reg, id)))
    decreases |codes|
  {
    hide ImportCode, HasWasm, IsImportable, Offset;
    if codes != [] {
      var r, first, rest := ImportCodes(env, v, codes), Next(v.reg.codeSeq), codes[1..];
      ImportCodeEnds(env, v, codes[0]);
      var one := ImportCode(env, v, codes[0]);
      if one.out.Ok? {
        assert Next(one.w.reg.codeSeq) == (first + 1) % TWO_64;
        ImportCodesEnds(env, one.w, rest);
        assert forall i :: 0 < i < |codes| ==> codes[i] == rest[i - 1];
        if r.out.Ok? {
          assert forall i :: 0 <= i < |rest| ==> IsImportable(env, rest[i]);
          WrapAdds(first + 1, |rest|);
          forall id | |codes| <= TWO_64 ensures FoundCode(r.w.reg, id) == if Offset(first, id) < |codes| then Some(codes[Offset(first, id)].info)
                                                      else FoundCode(v.reg, id)
          {
            OffsetNext(first, id);
          }
        } else {
          var i :| && 0 <= i < |rest| && !IsImportable(env, rest[i])
                   && (forall j :: 0 <= j < i ==> IsImportable(env, rest[j]))
                   && r.out == Panicked(if HasWasm(env, rest[i]) then CodeHashMismatch else GenesisCreateFailed);
          assert codes[i + 1] == rest[i];
          assert forall j :: 0 <= j < i + 1 ==> IsImportable(env, codes[j]);
        }
      }
    } else {
      NoCodes(v);
    }
  }

  lemma NoCodes(v: World)
    ensures Advanced(v.reg.codeSeq, 0) == v.reg.codeSeq && forall first, id :: Offset(first, id) >= 0
  {
  }

  // ------------------------------------------------------------------ importing contracts

  /** The newest value recorded for a key. */
  function NewestValue(state: seq<Model>, k: bytes): Option<bytes> {
    if state == [] then None
    else
      var later := NewestValue(state[1..], k);
      if later.Some? then later else if state[0].key == k then Some(state[0].value) else None
  }

  function NewestInfo(contracts: seq<GenesisContract>, a: address): Option<ContractInfo> {
    if contracts == [] then None
    else
      var later := NewestInfo(contracts[1..], a);
      if later.Some? then later else if contracts[0].addr == a then Some(contracts[0].info) else None
  }

  function NewestPair(contracts: seq<GenesisContract>, a: address, k: bytes): Option<bytes> {
    if contracts == [] then None
    else
      var later := NewestPair(contracts[1..], a, k);
      if later.Some? then later else if contracts[0].addr == a then NewestValue(contracts[0].state, k) else None
  }

  function Stored(reg: Registry, a: address, k: bytes): Option<bytes> {
    var sub := SubStore(reg, a);
    if k in sub then Some(sub[k]) else None
  }

  function Else<T>(x: Option<T>, y: Option<T>): Option<T> {
    if x.Some? then x else y
  }

  lemma {:induction false} ImportStateEnds(env: Env, v: World, a: address, state: seq<Model>)
    requires v.meter.Unmetered?
    ensures var r := ImportState(env, v, a, state);
            && r.out == Ok(()) && r.w == v.(reg := v.reg.(data := r.w.reg.data))
            && forall b: address, k :: Stored(r.w.reg, b, k) == if b == a then Else(NewestValue(state, k), Stored(v.reg, b, k)) else Stored(v.reg, b, k)
    decreases |state|
  {
    hide Write, Stored;
    if state != [] {
      var m := state[0];
      UnmeteredWrite(env, v, Data(a, m.key), Raw(m.value));
      var v1 := Write(env, v, Data(a, m.key), Raw(m.value)).w;
      PutStored(v.reg, a, m.key, m.value);
      ImportStateEnds(env, v1, a, state[1..]);
    }
  }

  lemma PutStored(reg: Registry, a: address, key: bytes, value: bytes)
    ensures var later := Put(reg, Data(a, key), Raw(value));
            forall b: address, k :: Stored(later, b, k) == if b == a && k == key then Some(value) else Stored(reg, b, k)
  {
  }

  /** Importing contracts always succeeds and touches nothing else; where a contract or a key occurs
      twice the last one counts. */
  lemma {:induction false} ImportContractsEnds(env: Env, v: World, contracts: seq<GenesisContract>)
    requires v.meter.Unmetered?
    ensures var r := ImportContracts(env, v, contracts);
            && r.out == Ok(()) && r.w == v.(reg := v.reg.(contracts := r.w.reg.contracts, data := r.w.reg.data))
            && (forall a: address :: Found(r.w.reg, a) == Else(NewestInfo(contracts, a), Found(v.reg, a)))
            && (forall a: address, k :: Stored(r.w.reg, a, k) == Else(NewestPair(contracts, a, k), Stored(v.reg, a, k)))
    decreases |contracts|
  {
    hide ImportState, Write, Stored;
    if contracts != [] {
      var c := contracts[0];
      UnmeteredWrite(env, v, Contract(c.addr), ContractValue(c.info));
      var v1 := Write(env, v, Contract(c.addr), ContractValue(c.info)).w;
      SameStored(v.reg, v1.reg);
      ImportStateEnds(env, v1, c.addr, c.state);
      ImportContractsEnds(env, ImportContract(env, v, c).w, contracts[1..]);
    }
  }

  lemma SameStored(reg: Registry, later: Registry)
    requires later.data == reg.data
    ensures forall a: address, k :: Stored(later, a, k) == Stored(reg, a, k)
  {
  }

  /** Importing any genesis state into any store: it succeeds exactly if all codes can be stored and
      have their hashes, and then every contract's record and pairs are as last given. */
  lemma ImportEnds(env: Env, v: World, g: GenesisState)
    requires v.meter.Unmetered?
    ensures var r := Import(env, v, g);
            && (r.out.Ok? <==> forall i :: 0 <= i < |g.codes| ==> IsImportable(env, g.codes[i]))
            && (r.out.Ok? ==>
                  && (forall a: address :: Found(r.w.reg, a) == Else(NewestInfo(g.contracts, a), Found(v.reg, a)))
                  && (forall a: address, k :: Stored(r.w.reg, a, k) == Else(NewestPair(g.contracts, a, k), Stored(v.reg, a, k)))
                  && r.w.reg.codes == ImportCodes(env, v, g.codes).w.reg.codes
                  && r.w.reg.codeSeq == Advanced(v.reg.codeSeq, |g.codes|) && r.w.reg.instanceSeq == v.reg.instanceSeq)
  {
    hide ImportCodes, ImportContracts, Stored, IsImportable;
    ImportCodesEnds(env, v, g.codes);
    var one := ImportCodes(env, v, g.codes);
    if one.out.Ok? {
      SameStored(v.reg, one.w.reg);
      ImportContractsEnds(env, one.w, g.contracts);
    }
  }

  // ------------------------------------------------------------------ exporting

  /** All pairs of a store, by ascending keys. */
  ghost predicate Lists(state: seq<Model>, sub: map<bytes, bytes>) {
    && (forall i, j :: 0 <= i < j < |state| ==> Before(state[i].key, state[j].key))
    && (forall m :: m in state <==> m.key in sub && sub[m.key] == m.value)
  }

  lemma ExportStateLists(sub: map<bytes, bytes>)
    ensures Lists(ExportState(sub), sub)
  {
    var ks, state := Ascending(sub.Keys), ExportState(sub);
    forall i, j | 0 <= i < j < |state| ensures Before(state[i].key, state[j].key) {
      LessIff(ks[i], ks[j]);
    }
    forall m: Model ensures m in state <==> m.key in sub && sub[m.key] == m.value {
      if m in state {
        var i :| 0 <= i < |state| && state[i] == m;
        assert ks[i] in ks;
      }
      if m.key in sub && sub[m.key] == m.value {
        assert m.key in ks;
        var i :| 0 <= i < |ks| && ks[i] == m.key;
        assert state[i] == m;
      }
    }
  }

  /** Codes 1 to one less than the next one. */
  function CodeCount(reg: Registry): nat {
    if reg.codeSeq.None? || reg.codeSeq.value == 0 then 0 else reg.codeSeq.value - 1
  }

  lemma {:induction false} ExportCodesOkIff(w: World, n: uint64)
    ensures ExportCodes(w, n).Ok? <==> forall id: uint64 :: 1 <= id <= n ==> id in w.reg.codes && w.reg.codes[id].hash in w.vm
    ensures ExportCodes(w, n).Ok? || ExportCodes(w, n) == Panicked(MissingCode)
  {
    if n > 0 {
      ExportCodesOkIff(w, n - 1);
    }
  }

  /** The code with this id, with its bytes. */
  predicate IsCodeOf(c: GenesisCode, w: World, id: int) {
    && 0 <= id < TWO_64 && id in w.reg.codes && w.reg.codes[id].hash in w.vm
    && c == GenesisCode(w.reg.codes[id], w.vm[w.reg.codes[id].hash])
  }

  /** Codes 1 to n. */
  ghost predicate ListsCodes(codes: seq<GenesisCode>, w: World, n: nat) {
    |codes| == n && forall i :: 0 <= i < n ==> IsCodeOf(codes[i], w, i + 1)
  }

  /** All contracts by ascending addresses, each with its record and all its pairs. */
  ghost predicate ListsContracts(contracts: seq<GenesisContract>, reg: Registry) {
    && |contracts| == |reg.contracts|
    && (forall i, j :: 0 <= i < j < |contracts| ==> Before(contracts[i].addr, contracts[j].addr))
    && forall i :: 0 <= i < |contracts| ==>
         var c := contracts[i];
         c.addr in reg.contracts && c.info == reg.contracts[c.addr] && Lists(c.state, SubStore(reg, c.addr))
  }

  lemma AscendingBefore(s: set<bytes>)
    ensures forall i, j :: 0 <= i < j < |Ascending(s)| ==> Before(Ascending(s)[i], Ascending(s)[j])
  {
    var ks := Ascending(s);
    hide Before, Less, Ascending;
    forall i, j | 0 <= i < j < |ks| ensures Before(ks[i], ks[j]) {
      LessIff(ks[i], ks[j]);
    }
  }

  lemma EachIsListed(reg: Registry, addrs: seq<bytes>)
    requires forall a :: a in addrs ==> |a| == 20 && a in reg.contracts
    ensures forall i :: 0 <= i < |addrs| ==>
              var c := ContractsAt(reg, addrs)[i];
              && c.addr == addrs[i] && c.addr in reg.contracts && c.info == reg.contracts[c.addr]
              && Lists(c.state, SubStore(reg, c.addr))
  {
    hide Lists, SubStore, ExportState, ContractsAt;
    forall i | 0 <= i < |addrs|
      ensures var c := ContractsAt(reg, addrs)[i];
              && c.addr == addrs[i] && c.addr in reg.contracts && c.info == reg.contracts[c.addr]
              && Lists(c.state, SubStore(reg, c.addr))
    {
      assert addrs[i] in addrs;
      ExportStateLists(SubStore(reg, addrs[i]));
    }
  }

  lemma ContractsAreListed(reg: Registry)
    ensures ListsContracts(ContractsAt(reg, Ascending(reg.contracts.Keys)), reg)
  {
    hide Lists, Before, SubStore, ContractsAt, Ascending, IsAscending;
    AscendingBefore(reg.contracts.Keys);
    EachIsListed(reg, Ascending(reg.contracts.Keys));
  }

  lemma {:induction false} CodesAreListed(w: World, n: uint64)
    requires ExportCodes(w, n).Ok?
    ensures ListsCodes(ExportCodes(w, n).value, w, n)
  {
    if n > 0 {
      var init, last := ExportCodes(w, n - 1).value, ExportCode(w, n).value;
      CodesAreListed(w, n - 1);
      assert ExportCodes(w, n).value == init + [last];
      assert IsCodeOf(last, w, n);
    }
  }

  /** An export succeeds exactly if every code up to the counter is there with its bytes, and it
      lists all codes and all contracts. */
  lemma ExportEnds(w: World)
    ensures var out, n := Export(w), CodeCount(w.reg);
            && (out.Ok? <==> forall id: uint64 :: 1 <= id <= n ==> id in w.reg.codes && w.reg.codes[id].hash in w.vm)
            && (out.Ok? ==> ListsCodes(out.value.codes, w, n) && ListsContracts(out.value.contracts, w.reg))
            && (!out.Ok? ==> out == Panicked(MissingCode))
  {
    hide ExportCodes, ListsCodes, ListsContracts, ContractsAt, IsAscending, Ascending;
    ExportCodesOkIff(w, CodeCount(w.reg));
    ContractsAreListed(w.reg);
    if ExportCodes(w, CodeCount(w.reg)).Ok? {
      CodesAreListed(w, CodeCount(w.reg));
    }
  }
}
