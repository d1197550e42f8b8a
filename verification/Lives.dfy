/** The whole life of a chain: histories of transactions, with exports and imports in between. What
    a theorem here says of a reachable state it says of every state in every such life. */
module Lives {
  import opened Bytes
  import opened Outcome
  import opened Layout
  import opened Bank
  import opened Gas
  import opened Types
  import opened Engine
  import opened Effects
  import opened Registrations
  import opened Lifecycle
  import opened Ownership
  import opened Genesis
  import opened Chain

  /** A history, and what its chain is started again with: the accounts, and the code found on
      disk. */
  datatype Era = Era(txs: seq<Tx>, accounts: Ledger, vm: map<bytes, bytes>)

  /** A world whose wasm store is empty. */
  function Blank(accounts: Ledger, vm: map<bytes, bytes>): World {
    World(EMPTY, vm, accounts, Unmetered, [])
  }

  /** Exports a chain and imports it beside other accounts. A chain that cannot be exported stays. */
  function Restart(env: Env, w: World, accounts: Ledger, vm: map<bytes, bytes>): World {
    match Export(w)
    case Ok(g) => Import(env, Blank(accounts, vm), g).w
    case _ => w
  }

  function Pass(env: Env, w: World, era: Era): World {
    Restart(env, History(env, w, era.txs), era.accounts, era.vm)
  }

  function Life(env: Env, w: World, eras: seq<Era>): World
    decreases |eras|
  {
    if eras == [] then w else Life(env, Pass(env, w, eras[0]), eras[1..])
  }

  function GasUsedInLife(env: Env, w: World, eras: seq<Era>): nat
    decreases |eras|
  {
    if eras == [] then 0
    else GasUsedOver(env, w, eras[0].txs) + GasUsedInLife(env, Pass(env, w, eras[0]), eras[1..])
  }

  /** At every import the accounts of all contracts have been created first, as the genesis code
      demands of its callers. */
  ghost predicate AccountsFirst(env: Env, w: World, eras: seq<Era>)
    decreases |eras|
  {
    eras == [] || (&& History(env, w, eras[0].txs).reg.contracts.Keys <= eras[0].accounts.Keys
                   && AccountsFirst(env, Pass(env, w, eras[0]), eras[1..]))
  }

  /** The invariant between transactions. */
  ghost predicate Healthy(env: Env, w: World) {
    Inv(env, w) && Owned(w, []) && w.meter.Unmetered?
  }

  /** Nothing was drawn yet since the chain was started. */
  ghost predicate Undrawn(w: World) {
    w.reg.instanceSeq == None && w.log == []
  }

  // ------------------------------------------------------------------ eras keep it

  lemma HistoryIsHealthy(env: Env, w: World, txs: seq<Tx>)
    requires Healthy(env, w) && Next(w.reg.codeSeq) + GasUsedOver(env, w, txs) < TWO_64
    ensures Healthy(env, History(env, w, txs))
  {
    hide History, Inv, Owned, Keeps;
    HistoryKeepsInv(env, w, txs);
    HistoryKeepsOwned(env, w, txs);
    HistoryIsUnmetered(env, w, txs);
  }

  lemma RestoredIsOwned(w: World, v: World)
    requires Restored(w, v)
    ensures Owned(v, [])
  {
  }

  /** A restart keeps everything but the instance counter; the code counter goes on. */
  lemma RestartIsHealthy(env: Env, w: World, accounts: Ledger, vm: map<bytes, bytes>)
    requires Healthy(env, w) && w.reg.contracts.Keys <= accounts.Keys
    ensures var v := Restart(env, w, accounts, vm);
            && Healthy(env, v) && Undrawn(v) && v.bank == accounts
            && v.reg.codeSeq == w.reg.codeSeq && v.reg.codes == w.reg.codes && v.reg.contracts == w.reg.contracts
  {
    hide Export, Import, Inv, Owned;
    ImportUndoesExport(env, w, Blank(accounts, vm));
    ImportedStateIsSound(env, w, Blank(accounts, vm));
    RestoredIsOwned(w, Restart(env, w, accounts, vm));
  }

  lemma PassIsHealthy(env: Env, w: World, era: Era)
    requires Healthy(env, w) && Next(w.reg.codeSeq) + GasUsedOver(env, w, era.txs) < TWO_64
    requires History(env, w, era.txs).reg.contracts.Keys <= era.accounts.Keys
    ensures var v := Pass(env, w, era);
            && Healthy(env, v) && Undrawn(v) && Keeps(w.reg, v.reg)
            && Next(v.reg.codeSeq) <= Next(w.reg.codeSeq) + GasUsedOver(env, w, era.txs)
            && v.reg.contracts == History(env, w, era.txs).reg.contracts
  {
    hide History, Restart, Owned, Inv;
    HistoryIsHealthy(env, w, era.txs);
    HistoryKeepsInv(env, w, era.txs);
    RestartIsHealthy(env, History(env, w, era.txs), era.accounts, era.vm);
  }

  /** Over any number of restarts the invariant and every code and contract entry are kept. */
  lemma {:induction false} LifeIsHealthy(env: Env, w: World, eras: seq<Era>)
    requires Healthy(env, w) && AccountsFirst(env, w, eras)
    requires Next(w.reg.codeSeq) + GasUsedInLife(env, w, eras) < TWO_64
    ensures var v := Life(env, w, eras);
            && Healthy(env, v) && Keeps(w.reg, v.reg)
            && Next(v.reg.codeSeq) <= Next(w.reg.codeSeq) + GasUsedInLife(env, w, eras)
            && (Undrawn(w) || eras != [] ==> Undrawn(v))
    decreases |eras|
  {
    hide Healthy, Pass, Keeps, Undrawn;
    NothingKeepsInv(w);
    if eras != [] {
      var v := Pass(env, w, eras[0]);
      PassIsHealthy(env, w, eras[0]);
      LifeIsHealthy(env, v, eras[1..]);
      KeepsTrans(w.reg, v.reg, Life(env, w, eras).reg);
    }
  }

  // ------------------------------------------------------------------ reachable states

  /** Before the first transaction: accounts may exist, the wasm store is empty. */
  ghost predicate Fresh(w: World) {
    w.reg == EMPTY && w.meter.Unmetered? && w.log == []
  }

  /** The state after some eras and the transactions of the present one. */
  function Reached(env: Env, start: World, eras: seq<Era>, txs: seq<Tx>): World {
    History(env, Life(env, start, eras), txs)
  }

  /** A life from an empty wasm store in which less than 2^64 gas was used, so that the code counter
      cannot have wrapped. */
  ghost predicate Possible(env: Env, start: World, eras: seq<Era>, txs: seq<Tx>) {
    && Fresh(start) && AccountsFirst(env, start, eras)
    && 1 + GasUsedInLife(env, start, eras) + GasUsedOver(env, Life(env, start, eras), txs) < TWO_64
  }

  lemma PresentEra(env: Env, start: World, eras: seq<Era>, txs: seq<Tx>)
    requires Possible(env, start, eras, txs)
    ensures var w := Life(env, start, eras);
            Healthy(env, w) && Undrawn(w) && Next(w.reg.codeSeq) + GasUsedOver(env, w, txs) < TWO_64
  {
    hide Life, GasUsedInLife, AccountsFirst;
    LifeIsHealthy(env, start, eras);
  }

  lemma ReachedIsHealthy(env: Env, start: World, eras: seq<Era>, txs: seq<Tx>)
    requires Possible(env, start, eras, txs)
    ensures Healthy(env, Reached(env, start, eras, txs))
  {
    hide Life, History, Healthy, Possible;
    PresentEra(env, start, eras, txs);
    HistoryIsHealthy(env, Life(env, start, eras), txs);
  }

  /** Every reachable state satisfies the invariant, whatever the contracts do. */
  lemma ReachableInv(env: Env, start: World, eras: seq<Era>, txs: seq<Tx>)
    requires Possible(env, start, eras, txs)
    ensures Inv(env, Reached(env, start, eras, txs))
  {
    hide Reached, Possible, Inv;
    ReachedIsHealthy(env, start, eras, txs);
  }

  /** In every reachable state only registered contracts have data. */
  lemma ReachableOwned(env: Env, start: World, eras: seq<Era>, txs: seq<Tx>, a: address)
    requires Possible(env, start, eras, txs)
    ensures var w := Reached(env, start, eras, txs);
            a !in w.reg.contracts ==> SubStore(w.reg, a) == map[]
  {
    hide Reached, Possible, Inv;
    ReachedIsHealthy(env, start, eras, txs);
  }

  /** The round trip: every reachable state survives export and import except for the instance
      counter. Nothing panics, every other slot of the store reads as before, and the imported
      state exports the same genesis state. */
  lemma ReachableRoundTrip(env: Env, start: World, eras: seq<Era>, txs: seq<Tx>, blank: World)
    requires Possible(env, start, eras, txs)
    requires blank.meter.Unmetered? && blank.reg == EMPTY
    ensures var w := Reached(env, start, eras, txs);
            Export(w).Ok? && var r := Import(env, blank, Export(w).value);
                             && r.out.Ok?
                             && (forall s: Slot :: s != LastInstance ==> Lookup(r.w.reg, s) == Lookup(w.reg, s))
                             && Export(r.w) == Export(w)
  {
    hide Reached, Possible, Export, Import, Restored;
    ReachableInv(env, start, eras, txs);
    var w := Reached(env, start, eras, txs);
    ImportUndoesExport(env, w, blank);
    ExportIsFixedPoint(env, w, blank);
    forall a: address ensures a !in w.reg.contracts ==> SubStore(w.reg, a) == map[] {
      ReachableOwned(env, start, eras, txs, a);
    }
    RestoredButTheCounter(w, Import(env, blank, Export(w).value).w);
  }

  /** A reachable state is imported completely if and only if no instance was drawn since the chain
      was last started. */
  lemma ReachableImportIsCompleteIff(env: Env, start: World, eras: seq<Era>, txs: seq<Tx>, blank: World)
    requires Possible(env, start, eras, txs)
    requires blank.meter.Unmetered? && blank.reg == EMPTY
    ensures var w := Reached(env, start, eras, txs);
            Export(w).Ok? &&
            ((forall s: Slot :: Lookup(Import(env, blank, Export(w).value).w.reg, s) == Lookup(w.reg, s))
             <==> forall i :: 0 <= i < |w.log| ==> !w.log[i].Generated?)
  {
    hide Life, Reached, Possible, Export, Import, Lookup, SubStore, Inv;
    ReachableInv(env, start, eras, txs);
    var w := Reached(env, start, eras, txs);
    ImportIsCompleteIff(env, w, blank);
    forall a: address ensures a !in w.reg.contracts ==> SubStore(w.reg, a) == map[] {
      ReachableOwned(env, start, eras, txs, a);
    }
    CounterShowsDraws(env, start, eras, txs);
  }

  lemma CounterShowsDraws(env: Env, start: World, eras: seq<Era>, txs: seq<Tx>)
    requires Possible(env, start, eras, txs)
    ensures var w := Reached(env, start, eras, txs);
            w.reg.instanceSeq == None <==> forall i :: 0 <= i < |w.log| ==> !w.log[i].Generated?
  {
    hide Life, History, Possible, Healthy, DrawnIDs, IDsFrom;
    PresentEra(env, start, eras, txs);
    HistoryDrawsInOrder(env, Life(env, start, eras), txs);
    var w := Reached(env, start, eras, txs);
    assert News(Life(env, start, eras), w) == w.log;
    NoneDrawn(w.log);
  }

  /** Unique addresses: any two instances drawn since the chain was last started, with ids below 32
      bits, have different contract ids and buffers, and different addresses unless the hash
      collides on those buffers. */
  lemma ReachableIDsDiffer(env: Env, start: World, eras: seq<Era>, txs: seq<Tx>)
    requires Possible(env, start, eras, txs)
    ensures EarlyDrawsSeparate(env, Reached(env, start, eras, txs).log)
  {
    hide Life, History, DrawnIDs, DrawsInOrder, EarlyDrawsSeparate, AccountsFirst, Healthy;
    PresentEra(env, start, eras, txs);
    var w, v := Life(env, start, eras), Reached(env, start, eras, txs);
    HistoryDrawsInOrder(env, w, txs);
    DrawnLater(w, v);
    DrawnIDsDiffer(env, w, v);
    assert News(w, v) == v.log;
  }

  // ------------------------------------------------------------------ each address once

  function RegistersInLife(env: Env, w: World, eras: seq<Era>): seq<address>
    decreases |eras|
  {
    if eras == [] then []
    else RegistersOver(env, w, eras[0].txs) + RegistersInLife(env, Pass(env, w, eras[0]), eras[1..])
  }

  lemma {:induction false} LifeRegistersOnce(env: Env, w: World, eras: seq<Era>)
    requires Healthy(env, w) && AccountsFirst(env, w, eras)
    requires Next(w.reg.codeSeq) + GasUsedInLife(env, w, eras) < TWO_64
    ensures AddsOnce(w.reg.contracts.Keys, Life(env, w, eras).reg.contracts.Keys, RegistersInLife(env, w, eras))
    decreases |eras|
  {
    hide Pass, History, Owned, Inv, AddsOnce, Keeps, Undrawn;
    if eras == [] {
      AddsNothing(w.reg.contracts.Keys);
    } else {
      var v := Pass(env, w, eras[0]);
      PassIsHealthy(env, w, eras[0]);
      HistoryRegistersOnce(env, w, eras[0].txs);
      LifeRegistersOnce(env, v, eras[1..]);
      AddsOnceTrans(w.reg.contracts.Keys, v.reg.contracts.Keys, Life(env, w, eras).reg.contracts.Keys,
                    RegistersOver(env, w, eras[0].txs), RegistersInLife(env, v, eras[1..]));
    }
  }

  /** Although ids are drawn again after an import, no address is ever registered twice: the
      addresses registered over the whole life, at any depth of any call tree, are pairwise
      different, and they are exactly the contracts there are. */
  lemma ReachableRegistersOnce(env: Env, start: World, eras: seq<Era>, txs: seq<Tx>)
    requires Possible(env, start, eras, txs)
    ensures AddsOnce({}, Reached(env, start, eras, txs).reg.contracts.Keys,
                     RegistersInLife(env, start, eras) + RegistersOver(env, Life(env, start, eras), txs))
  {
    hide Life, History, AccountsFirst, AddsOnce, RegistersInLife, RegistersOver, GasUsedInLife, GasUsedOver, Healthy;
    assert Healthy(env, start) by {
      FreshIsHealthy(env, start);
    }
    var w := Life(env, start, eras);
    assert start.reg.contracts.Keys == {};
    LifeRegistersOnce(env, start, eras);
    PresentEra(env, start, eras, txs);
    RegistersInPresentEra(env, w, txs);
    AddsOnceTrans({}, w.reg.contracts.Keys, History(env, w, txs).reg.contracts.Keys,
                  RegistersInLife(env, start, eras), RegistersOver(env, w, txs));
  }

  lemma FreshIsHealthy(env: Env, start: World)
    requires Fresh(start)
    ensures Healthy(env, start)
  {
  }

  lemma RegistersInPresentEra(env: Env, w: World, txs: seq<Tx>)
    requires Healthy(env, w) && Next(w.reg.codeSeq) + GasUsedOver(env, w, txs) < TWO_64
    ensures AddsOnce(w.reg.contracts.Keys, History(env, w, txs).reg.contracts.Keys, RegistersOver(env, w, txs))
  {
    hide History, Inv, AddsOnce;
    HistoryRegistersOnce(env, w, txs);
  }

  // ------------------------------------------------------------------ used addresses after an import

  /** After an import the counter starts at 1 whatever it was before. A code whose address for
      instance 1 has an account is refused until some instance, of another code, is drawn; and at
      any time the account check refuses a code, with gas to get that far, exactly when its address
      next in line then has an account. */
  lemma ImportForgetsInstances(env: Env, w: World, blank: World, txs: seq<Tx>, tx: Tx)
    requires Inv(env, w) && blank.meter.Unmetered? && blank.reg == EMPTY && tx.m.InstantiateContract?
    ensures Export(w).Ok?
    ensures var c := tx.m.codeID;
            var v := Import(env, blank, Export(w).value).w;
            var u := History(env, v, txs);
            && v.log <= u.log
            && (AddrFromUint64(env, ContractID(c, 1)) in blank.bank && DrawnIDs(News(v, u)) == [] ==> Deliver(env, u, tx) == u)
            && (InstantiateHead(env, Begin(u, tx), c, tx.m.sender, tx.m.initMsg, tx.m.funds).out == Err(AccountExists)
                <==> NewAddress(env, u, c) in u.bank && DrawCost(env, Begin(u, tx), c) <= tx.gasLimit)
  {
    hide Export, Import, InstantiateHead, AddrFromUint64, ContractID, DrawCost, History, Deliver, DrawnIDs, IDsFrom;
    ImportUndoesExport(env, w, blank);
    var v := Import(env, blank, Export(w).value).w;
    assert NewAddress(env, v, tx.m.codeID) == AddrFromUint64(env, ContractID(tx.m.codeID, 1));
    HistoryDrawsInOrder(env, v, txs);
    RefusedWhileCounterStands(env, v, txs, tx);
  }
}
