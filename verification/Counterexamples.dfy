/** Concrete environments and states for the claims that do not hold without a condition. */
module Counterexamples {
  import opened Bytes
  import opened Outcome
  import opened Layout
  import opened Coins
  import opened Bank
  import opened Gas
  import opened Types
  import opened Engine
  import opened Effects
  import opened Affordability
  import opened Genesis
  import opened Chain
  import opened Lives

  /** An environment in which everything is accepted, every store access costs 1, and contracts
      answer as given. */
  function Plain(answer: RunInput -> RunOutput, hash: bytes -> address): Env {
    Env(answer, code => true, code => code, src => None, hash,
        (k, v) => 1, (k, v) => 1, a => 0, m => 0, m => false, m => true, d => true, s => None)
  }

  /** A hash under which no two buffers collide. */
  const AS_IS: bytes -> address := (buffer: bytes) => if |buffer| == 20 then buffer else ZERO_ADDRESS

  const SILENCE: RunResult := RunResult(0, [], [])

  /** Contracts that do nothing. */
  const SILENT: RunInput -> RunOutput := (inp: RunInput) => RunOutput([], 0, Some(SILENCE))

  /** Contracts that report all the gas they were granted and access storage once. */
  const GREEDY: RunInput -> RunOutput := (inp: RunInput) => RunOutput([], 1, Some(RunResult(inp.gas, [], [])))

  /** A chain whose contracts do nothing. */
  const QUIET: Env := Plain(SILENT, AS_IS)

  const START: World := World(EMPTY, map[], map[], Unmetered, [])

  const STORED: CodeInfo := CodeInfo(WASM_MAGIC, [1], "", "")

  const STORE: Tx := Tx(StoreCode([1], WASM_MAGIC, "", ""), 100)

  function LaunchOf(codeID: uint64): Tx {
    Tx(InstantiateContract([1], codeID, [], []), 100)
  }

  lemma PlainIncrements(w: World, s: Slot)
    requires s.LastCode? || s.LastInstance?
    requires w.meter.Metered? && w.meter.consumed + 2 <= w.meter.limit
    ensures var id := Next(CounterAt(w.reg, s));
            var next: Option<uint64> := Some((id + 1) % TWO_64);
            AutoIncrementID(QUIET, w, s)
            == Res(w.(meter := Metered(w.meter.limit, w.meter.consumed + 2),
                      reg := if s.LastCode? then w.reg.(codeSeq := next) else w.reg.(instanceSeq := next)), Ok(id))
  {
    hide Encode, Lookup, Put, BigEndianToUint64, CounterAt;
    CounterRead(w.reg, s);
    CounterWritten(w.reg, s, (Next(CounterAt(w.reg, s)) + 1) % TWO_64);
  }

  lemma PlainStores()
    ensures var w := Deliver(QUIET, START, STORE);
            w.reg == EMPTY.(codeSeq := Some(2), codes := map[1 := STORED]) && w.bank == map[] && w.meter.Unmetered? && w.log == []
  {
    hide Encode, AutoIncrementID, Later;
    var w := Begin(START, STORE);
    assert WASM_MAGIC[..3][0] == 0 && WASM_MAGIC[..4] == WASM_MAGIC;
    assert Uncompress(QUIET, WASM_MAGIC) == Some(WASM_MAGIC) && Compiles(QUIET, WASM_MAGIC);
    PlainIncrements(w.(vm := w.vm[WASM_MAGIC := WASM_MAGIC]), LastCode);
  }

  /** Sending no coins succeeds and creates the accounts. */
  lemma SendsNothing(l: Ledger, from: bytes, to: bytes)
    ensures var r := Send(d => true, l, from, to, []);
            r.Ok? && r.value.Keys == l.Keys + {from, to}
  {
  }

  lemma PlainSetsUp(w: World, addr: address, codeID: uint64)
    requires codeID in w.reg.codes && w.meter.Metered? && w.meter.consumed + 1 <= w.meter.limit
    ensures var r := SetUp(QUIET, w, addr, codeID, [1], [], []);
            && r.out == Ok(SILENCE) && r.w.bank.Keys == w.bank.Keys + {[1], addr}
            && r.w.meter == Metered(w.meter.limit, w.meter.consumed + 1)
            && r.w.reg == w.reg.(data := w.reg.data[addr := SubStore(w.reg, addr)])
  {
    hide Encode, Later, Send, MultiSend, GasForContract, ToWasm, SubStore;
    SendsNothing(w.bank, [1], addr);
  }

  lemma PlainHead(w: World, codeID: uint64)
    requires codeID in w.reg.codes && w.meter == Metered(100, 0) && NewAddress(QUIET, w, codeID) !in w.bank
    ensures var addr := NewAddress(QUIET, w, codeID);
            var r := InstantiateHead(QUIET, w, codeID, [1], [], []);
            && r.out == Ok((addr, SILENCE)) && r.w.meter == Metered(100, 3)
            && r.w.bank.Keys == w.bank.Keys + {[1], addr}
            && r.w.reg == w.reg.(instanceSeq := Some((Next(w.reg.instanceSeq) + 1) % TWO_64),
                                 data := w.reg.data[addr := SubStore(w.reg, addr)])
  {
    hide Later, AutoIncrementID, SetUp, ContractID, AddrFromUint64, SubStore;
    var addr := NewAddress(QUIET, w, codeID);
    PlainIncrements(w, LastInstance);
    var gen := GenerateContractAddress(QUIET, w, codeID);
    PlainSetsUp(gen.w, addr, codeID);
    SameData(w.reg, gen.w.reg);
  }

  lemma PlainInstantiates(w: World, codeID: uint64)
    requires codeID in w.reg.codes && w.meter.Unmetered? && NewAddress(QUIET, w, codeID) !in w.bank
    ensures var addr := NewAddress(QUIET, w, codeID);
            var v := Deliver(QUIET, w, LaunchOf(codeID));
            && v.reg == w.reg.(instanceSeq := Some((Next(w.reg.instanceSeq) + 1) % TWO_64),
                               contracts := w.reg.contracts[addr := ContractInfo(codeID, [1], [])],
                               data := w.reg.data[addr := SubStore(w.reg, addr)])
            && v.bank.Keys == w.bank.Keys + {[1], addr} && v.meter.Unmetered?
  {
    hide Encode, InstantiateHead, NewAddress, SubStore;
    var b, addr := Begin(w, LaunchOf(codeID)), NewAddress(QUIET, w, codeID);
    SameNewAddress(QUIET, b, w, codeID);
    SameData(w.reg, b.reg);
    PlainHead(b, codeID);
    var head := InstantiateHead(QUIET, b, codeID, [1], [], []);
    assert DispatchMessages(QUIET, head.w, addr, []) == Res(head.w, Ok(()));
    var r := Instantiate(QUIET, b, codeID, [1], [], []);
    assert Handle(QUIET, b, LaunchOf(codeID).m) == Res(r.w, Ok(()));
  }

  /** Two transactions, one after the other. */
  lemma TwoSteps(w: World, s: Tx, t: Tx)
    ensures History(QUIET, w, [s, t]) == Deliver(QUIET, Deliver(QUIET, w, s), t)
    ensures GasUsedOver(QUIET, w, [s, t]) <= s.gasLimit + t.gasLimit
  {
    hide Handle;
    var v := Deliver(QUIET, w, s);
    assert [s, t][1..] == [t] && [t][1..] == [];
    assert History(QUIET, v, [t]) == Deliver(QUIET, v, t);
    assert GasUsedOver(QUIET, v, [t]) <= t.gasLimit;
  }

  /** A history that an import does not fully restore: a code is stored and instantiated once, and
      the instance counter, then 2, starts again at 1. */
  lemma CounterIsLost()
    ensures var w := History(QUIET, START, [STORE, LaunchOf(1)]);
            && Fresh(START) && w.reg.instanceSeq == Some(2)
            && Export(w).Ok? && Import(QUIET, START, Export(w).value).w.reg.instanceSeq == None
  {
    hide Export, Import, Deliver, NewAddress, History, GasUsedOver, Plain, SubStore;
    var w1 := Deliver(QUIET, START, STORE);
    PlainStores();
    PlainInstantiates(w1, 1);
    TwoSteps(START, STORE, LaunchOf(1));
    HistoryKeepsInv(QUIET, START, [STORE, LaunchOf(1)]);
    ImportUndoesExport(QUIET, History(QUIET, START, [STORE, LaunchOf(1)]), START);
  }

  // ------------------------------------------------------------------ a refused code, unblocked

  /** The account at the address of code 1, instance 1. */
  const TAKEN: address := AddrFromUint64(QUIET, ContractID(1, 1))

  /** Two codes, no counter, and that address taken: as after an import. */
  const IMPORTED: World :=
    World(EMPTY.(codeSeq := Some(3), codes := map[1 := STORED, 2 := STORED]), map[WASM_MAGIC := WASM_MAGIC], map[TAKEN := map[]], Unmetered, [])

  lemma DifferentAddresses(codeID: uint64, instanceID: uint64, codeID': uint64, instanceID': uint64)
    requires ContractID(codeID, instanceID) != ContractID(codeID', instanceID')
    ensures AddrFromUint64(QUIET, ContractID(codeID, instanceID)) != AddrFromUint64(QUIET, ContractID(codeID', instanceID'))
  {
    hide ContractID;
    AddressBufferInjective(ContractID(codeID, instanceID), ContractID(codeID', instanceID'));
  }

  lemma ImportedIsHealthy()
    ensures Healthy(QUIET, IMPORTED) && Undrawn(IMPORTED)
  {
    assert WASM_MAGIC[..4] == WASM_MAGIC;
  }

  lemma NextAddress(w: World, codeID: uint64)
    ensures NewAddress(QUIET, w, codeID) == AddrFromUint64(QUIET, ContractID(codeID, Next(w.reg.instanceSeq)))
  {
  }

  lemma AnotherLaunch()
    ensures var addr, w := AddrFromUint64(QUIET, ContractID(2, 1)), Deliver(QUIET, IMPORTED, LaunchOf(2));
            && w.reg.contracts == map[addr := ContractInfo(2, [1], [])] && w.reg.codes == IMPORTED.reg.codes
            && w.reg.instanceSeq == Some(2) && w.bank.Keys == {TAKEN, [1], addr} && w.meter.Unmetered?
  {
    DifferentAddresses(2, 1, 1, 1);
    hide Deliver, AddrFromUint64, ContractID, NewAddress, SubStore, Plain;
    NextAddress(IMPORTED, 2);
    PlainInstantiates(IMPORTED, 2);
  }

  lemma ThenItsOwn()
    ensures var w := Deliver(QUIET, IMPORTED, LaunchOf(2));
            Deliver(QUIET, w, LaunchOf(1)).reg.contracts == w.reg.contracts[AddrFromUint64(QUIET, ContractID(1, 2)) := ContractInfo(1, [1], [])]
  {
    DifferentAddresses(1, 2, 1, 1);
    DifferentAddresses(1, 2, 2, 1);
    hide Deliver, AddrFromUint64, ContractID, NewAddress, SubStore, Plain;
    AnotherLaunch();
    var w := Deliver(QUIET, IMPORTED, LaunchOf(2));
    NextAddress(w, 1);
    StillFree(w.bank.Keys, TAKEN, AddrFromUint64(QUIET, ContractID(2, 1)), AddrFromUint64(QUIET, ContractID(1, 2)));
    PlainInstantiates(w, 1);
  }

  lemma StillFree(accounts: set<bytes>, x: address, y: address, z: address)
    requires accounts == {x, [1], y} && z != x && z != y
    ensures z !in accounts
  {
    assert |z| == 20 && |[1]| == 1;
  }

  /** The counter is shared, so launching another code unblocks a refused one: code 1 is refused,
      then code 2 is launched under the unused id (2, 1), and then code 1 under (1, 2). */
  lemma AnotherLaunchUnblocks()
    ensures Healthy(QUIET, IMPORTED) && Undrawn(IMPORTED)
    ensures Deliver(QUIET, IMPORTED, LaunchOf(1)) == IMPORTED
    ensures var w := History(QUIET, IMPORTED, [LaunchOf(2), LaunchOf(1)]);
            w.reg.contracts == map[AddrFromUint64(QUIET, ContractID(2, 1)) := ContractInfo(2, [1], []),
                                   AddrFromUint64(QUIET, ContractID(1, 2)) := ContractInfo(1, [1], [])]
  {
    hide Deliver, History, AddrFromUint64, ContractID, Healthy;
    ImportedIsHealthy();
    TakenAddressBlocks(QUIET, IMPORTED, LaunchOf(1));
    AnotherLaunch();
    ThenItsOwn();
    TwoSteps(IMPORTED, LaunchOf(2), LaunchOf(1));
  }

  // ------------------------------------------------------------------ honest contracts

  /** A call without funds that is granted what 1000 SDK gas are worth. */
  const ASKED: Occasion :=
    Occasion(RunInput(OnHandle, [], [], [], ZERO_ADDRESS, map[], [], map[], 100_000), [], map[ZERO_ADDRESS := map[]],
             ContractInfo(1, [], []), CodeInfo([], [], "", ""), None)

  /** Contracts that stay within their grants can still exhaust the meter, because storage gas
      comes out of the same meter: here Execute ends that way. */
  lemma HonestContractsCanOverrun()
    ensures var env := Plain(GREEDY, AS_IS);
            && Honest(env) && Arises(env, ASKED) && CostOf(env, ASKED) == 2
            && Execute(env, Stage(env, ASKED, 1002, 2), ZERO_ADDRESS, [], [], []).out == Panicked(BROKE)
  {
    hide Execute, Stage;
    assert ToWasm([]) == [];
    var taken := Shift(ASKED.before, [], [], -1);
    assert Held(Shift(taken, ZERO_ADDRESS, [], 1), ZERO_ADDRESS) == map[];
    OverrunIsReachable(Plain(GREEDY, AS_IS), ASKED, 1002, 2);
  }
}
