/** Histories: transactions delivered one after another, each under its own gas limit, a failed one
    undone. */
module Chain {
  import opened Bytes
  import opened Outcome
  import opened Layout
  import opened Coins
  import opened Bank
  import opened Gas
  import opened Types
  import opened Engine
  import opened Machine
  import opened Effects
  import opened Funds
  import opened Registrations
  import opened Lifecycle
  import opened Ownership
  import opened Answers
  import opened Uploads

  datatype Tx = Tx(m: SdkMsg, gasLimit: uint64)

  function Begin(w: World, tx: Tx): World {
    w.(meter := Metered(tx.gasLimit, 0))
  }

  /** A failed transaction leaves the chain's state as it was. Code accepted by the virtual
      machine stays on disk. */
  function Deliver(env: Env, w: World, tx: Tx): World {
    var r := Handle(env, Begin(w, tx), tx.m);
    if r.out.Ok? then r.w.(meter := Unmetered) else w.(vm := r.w.vm, meter := Unmetered)
  }

  function History(env: Env, w: World, txs: seq<Tx>): World
    decreases |txs|
  {
    if txs == [] then w else History(env, Deliver(env, w, txs[0]), txs[1..])
  }

  /** The gas a transaction used, if it succeeded. */
  function GasUsed(env: Env, w: World, tx: Tx): nat {
    var r := Handle(env, Begin(w, tx), tx.m);
    if r.out.Ok? then tx.gasLimit - GasLeft(r.w) else 0
  }

  function GasUsedOver(env: Env, w: World, txs: seq<Tx>): nat
    decreases |txs|
  {
    if txs == [] then 0 else GasUsed(env, w, txs[0]) + GasUsedOver(env, Deliver(env, w, txs[0]), txs[1..])
  }

  /** The call or launch a transaction starts, if it is one. */
  function Scheduled(m: SdkMsg): seq<Task> {
    match m
    case InstantiateContract(sender, codeID, initMsg, funds) => [Launch(codeID, sender, initMsg, funds)]
    case ExecuteContract(sender, contract, msg, funds) => [Call(contract, sender, msg, funds)]
    case _ => []
  }

  lemma HandleIsRun(env: Env, w: World, m: SdkMsg)
    requires w.meter.Metered? && Scheduled(m) != []
    ensures Handle(env, w, m) == Run(env, w, Scheduled(m))
  {
    hide Execute, Instantiate, Run;
    match m {
      case InstantiateContract(sender, codeID, initMsg, funds) =>
        InstantiateIsRun(env, w, codeID, sender, initMsg, funds);
      case ExecuteContract(sender, contract, msg, funds) =>
        ExecuteIsRun(env, w, contract, sender, msg, funds);
    }
  }

  /** A transaction that schedules nothing moves its signers' coins, or stores code. */
  lemma HandleEffect(env: Env, w: World, m: SdkMsg)
    requires w.meter.Metered? && Scheduled(m) == []
    ensures var r := Handle(env, w, m);
            Paid(w, r.w, Effects.Signers(m)) || CreateEffect(env, w, r)
  {
    hide Create, Transfer, Sound, Effects.Signers;
    SoundRefl(w.bank, Effects.Signers(m));
    match m {
      case StoreCode(sender, code, source, builder) =>
        if env.storeCodeOk(m) {
          CreateHasEffect(env, w, sender, code, source, builder);
          SameCreateEffect(env, w, Create(env, w, sender, code, source, builder), Handle(env, w, m));
        }
      case Other(_) =>
      case _ =>
        TransferEffect(env, w, m);
    }
  }

  lemma SameCreateEffect<T, U>(env: Env, w: World, r: Res<T>, s: Res<U>)
    requires CreateEffect(env, w, r) && s.w == r.w && (s.out.Ok? <==> r.out.Ok?) && (s.out.Panicked? <==> r.out.Panicked?)
    ensures CreateEffect(env, w, s)
  {
    hide Compiles;
    if code, info :| CreatedAs(env, w, r, code, info) {
      assert CreatedAs(env, w, s, code, info);
    }
  }

  /** Neither of these touches instances, contracts or data, nor logs anything. */
  lemma EffectIsQuiet<T>(env: Env, w: World, r: Res<T>, payers: set<bytes>)
    requires Paid(w, r.w, payers) || CreateEffect(env, w, r)
    ensures r.w.log == w.log && r.w.reg.instanceSeq == w.reg.instanceSeq
    ensures r.w.reg.contracts == w.reg.contracts && r.w.reg.data == w.reg.data
    ensures w.bank.Keys <= r.w.bank.Keys
    ensures StillHolds(env, w.vm, r.w.vm)
  {
    hide Compiles, HoldsCode, StillHolds, Total, Balance, NonNegative;
    NothingKeepsInv(w);
    CreateStillHolds(env, w, r);
  }

  // ------------------------------------------------------------------ the invariant

  lemma HandleKeepsInv(env: Env, w: World, m: SdkMsg)
    requires w.meter.Metered? && Inv(env, w) && Room(w, Handle(env, w, m).w)
    ensures var r := Handle(env, w, m);
            && Keeps(w.reg, r.w.reg) && w.bank.Keys <= r.w.bank.Keys
            && (r.out.Panicked? || (Inv(env, r.w) && Spends(w, r.w)))
  {
    hide Inv, Keeps, StillHolds, Handle, Run, Total, Balance, NonNegative, CreateEffect;
    NothingKeepsInv(w);
    if Scheduled(m) != [] {
      HandleIsRun(env, w, m);
      RunKeepsInv(env, w, Scheduled(m));
    } else {
      HandleEffect(env, w, m);
      if Paid(w, Handle(env, w, m).w, Effects.Signers(m)) {
        QuietKeepsInv(env, w, Handle(env, w, m).w);
      } else {
        CreateKeepsInv(env, w, Handle(env, w, m));
      }
    }
  }

  lemma NothingKeepsInv(w: World)
    ensures Keeps(w.reg, w.reg) && forall env :: StillHolds(env, w.vm, w.vm)
  {
  }

  lemma HandleStillHolds(env: Env, w: World, m: SdkMsg)
    requires w.meter.Metered?
    ensures StillHolds(env, w.vm, Handle(env, w, m).w.vm)
  {
    hide Handle, Run, StillHolds, Paid, CreateEffect;
    if Scheduled(m) != [] {
      HandleIsRun(env, w, m);
      RunStillHolds(env, w, Scheduled(m));
    } else {
      HandleEffect(env, w, m);
      EffectIsQuiet(env, w, Handle(env, w, m), Effects.Signers(m));
    }
  }

  lemma MeterOnly(env: Env, w: World, m: Meter)
    requires Inv(env, w)
    ensures Inv(env, w.(meter := m))
  {
    hide HoldsCode;
  }

  lemma HeldCodeOnly(env: Env, w: World, vm: map<bytes, bytes>)
    requires Inv(env, w) && StillHolds(env, w.vm, vm)
    ensures Inv(env, w.(vm := vm))
  {
    hide HoldsCode;
  }

  /** A transaction keeps the invariant and every registered code and contract, and uses up the
      code counter no faster than gas. */
  lemma DeliverKeepsInv(env: Env, w: World, tx: Tx)
    requires Inv(env, w) && Next(w.reg.codeSeq) + GasUsed(env, w, tx) < TWO_64
    ensures var v := Deliver(env, w, tx);
            Inv(env, v) && Keeps(w.reg, v.reg) && Next(v.reg.codeSeq) <= Next(w.reg.codeSeq) + GasUsed(env, w, tx)
  {
    hide Inv, Keeps, Handle, StillHolds;
    var b := Begin(w, tx);
    MeterOnly(env, w, b.meter);
    NothingKeepsInv(w);
    var r := Handle(env, b, tx.m);
    if r.out.Ok? {
      HandleKeepsInv(env, b, tx.m);
      MeterOnly(env, r.w, Unmetered);
    } else {
      HandleStillHolds(env, b, tx.m);
      HeldCodeOnly(env, w, r.w.vm);
      MeterOnly(env, w.(vm := r.w.vm), Unmetered);
    }
  }

  lemma {:induction false} HistoryKeepsInv(env: Env, w: World, txs: seq<Tx>)
    requires Inv(env, w) && Next(w.reg.codeSeq) + GasUsedOver(env, w, txs) < TWO_64
    ensures var v := History(env, w, txs);
            Inv(env, v) && Keeps(w.reg, v.reg) && Next(v.reg.codeSeq) <= Next(w.reg.codeSeq) + GasUsedOver(env, w, txs)
    decreases |txs|
  {
    hide Inv, Keeps, Deliver, GasUsed;
    NothingKeepsInv(w);
    if txs != [] {
      DeliverKeepsInv(env, w, txs[0]);
      var v := Deliver(env, w, txs[0]);
      HistoryKeepsInv(env, v, txs[1..]);
      KeepsTrans(w.reg, v.reg, History(env, w, txs).reg);
    }
  }

  lemma {:induction false} HistoryIsUnmetered(env: Env, w: World, txs: seq<Tx>)
    requires w.meter.Unmetered?
    ensures History(env, w, txs).meter.Unmetered?
    decreases |txs|
  {
    hide Handle;
    if txs != [] {
      HistoryIsUnmetered(env, Deliver(env, w, txs[0]), txs[1..]);
    }
  }

  // ------------------------------------------------------------------ owners of data

  lemma HandleKeepsOwned(env: Env, w: World, m: SdkMsg)
    requires w.meter.Metered? && Owned(w, [])
    ensures Handle(env, w, m).out.Ok? ==> Owned(Handle(env, w, m).w, [])
  {
    hide Handle, Run, Paid, CreateEffect, Owned;
    if Scheduled(m) != [] {
      HandleIsRun(env, w, m);
      OwnedByMore(w, Scheduled(m));
      RunKeepsOwned(env, w, Scheduled(m));
    } else {
      HandleEffect(env, w, m);
      EffectIsQuiet(env, w, Handle(env, w, m), Effects.Signers(m));
      SameDataOwned(w, Handle(env, w, m).w);
    }
  }

  lemma OwnedByMore(w: World, ts: seq<Task>)
    requires Owned(w, [])
    ensures Owned(w, ts)
  {
  }

  lemma SameDataOwned(w: World, v: World)
    requires Owned(w, [])
    ensures v.reg.data == w.reg.data && v.reg.contracts == w.reg.contracts ==> Owned(v, [])
  {
  }

  lemma {:induction false} HistoryKeepsOwned(env: Env, w: World, txs: seq<Tx>)
    requires Owned(w, [])
    ensures Owned(History(env, w, txs), [])
    decreases |txs|
  {
    hide Handle;
    if txs != [] {
      var b := Begin(w, txs[0]);
      SameDataOwned(w, b);
      HandleKeepsOwned(env, b, txs[0].m);
      var v := Deliver(env, w, txs[0]);
      if Handle(env, b, txs[0].m).out.Ok? {
        SameDataOwned(Handle(env, b, txs[0].m).w, v);
      } else {
        SameDataOwned(w, v);
      }
      HistoryKeepsOwned(env, v, txs[1..]);
    }
  }

  // ------------------------------------------------------------------ each address once

  /** The addresses a transaction registers, in order. */
  function RegistersIn(env: Env, w: World, tx: Tx): seq<address> {
    if Handle(env, Begin(w, tx), tx.m).out.Ok? then Registers(env, Begin(w, tx), Scheduled(tx.m)) else []
  }

  function RegistersOver(env: Env, w: World, txs: seq<Tx>): seq<address>
    decreases |txs|
  {
    if txs == [] then [] else RegistersIn(env, w, txs[0]) + RegistersOver(env, Deliver(env, w, txs[0]), txs[1..])
  }

  lemma DeliverRegistersOnce(env: Env, w: World, tx: Tx)
    requires Inv(env, w) && Next(w.reg.codeSeq) + GasUsed(env, w, tx) < TWO_64
    ensures AddsOnce(w.reg.contracts.Keys, Deliver(env, w, tx).reg.contracts.Keys, RegistersIn(env, w, tx))
  {
    hide Handle, Run, Inv, Paid, CreateEffect, AddsOnce;
    var b := Begin(w, tx);
    MeterOnly(env, w, b.meter);
    AddsNothing(w.reg.contracts.Keys);
    if Handle(env, b, tx.m).out.Ok? {
      if Scheduled(tx.m) != [] {
        HandleIsRun(env, b, tx.m);
        RunRegistersOnce(env, b, Scheduled(tx.m));
      } else {
        HandleEffect(env, b, tx.m);
        EffectIsQuiet(env, b, Handle(env, b, tx.m), Effects.Signers(tx.m));
      }
    }
  }

  lemma {:induction false} HistoryRegistersOnce(env: Env, w: World, txs: seq<Tx>)
    requires Inv(env, w) && Next(w.reg.codeSeq) + GasUsedOver(env, w, txs) < TWO_64
    ensures AddsOnce(w.reg.contracts.Keys, History(env, w, txs).reg.contracts.Keys, RegistersOver(env, w, txs))
    decreases |txs|
  {
    hide Deliver, RegistersIn, Inv, AddsOnce, GasUsed, Keeps;
    if txs == [] {
      AddsNothing(w.reg.contracts.Keys);
    } else {
      var v := Deliver(env, w, txs[0]);
      DeliverKeepsInv(env, w, txs[0]);
      DeliverRegistersOnce(env, w, txs[0]);
      HistoryRegistersOnce(env, v, txs[1..]);
      AddsOnceTrans(w.reg.contracts.Keys, v.reg.contracts.Keys, History(env, w, txs).reg.contracts.Keys,
                    RegistersIn(env, w, txs[0]), RegistersOver(env, v, txs[1..]));
    }
  }

  // ------------------------------------------------------------------ coins over a history

  lemma HandleIsSound(env: Env, w: World, m: SdkMsg)
    requires w.meter.Metered?
    ensures var r := Handle(env, w, m);
            Sound(w.bank, r.w.bank, Effects.Signers(m) + Actors(r.w.log, |w.log|))
  {
    hide Sound, Handle, Run, Actors, CreatedAs;
    var r := Handle(env, w, m);
    var payers := Effects.Signers(m) + Actors(r.w.log, |w.log|);
    SoundRefl(w.bank, payers);
    if Scheduled(m) != [] {
      HandleIsRun(env, w, m);
      assert m.sender in GetSigners(m);
      RunIsSound(env, w, Scheduled(m), {m.sender}, |w.log|);
      SoundMono(w.bank, r.w.bank, {m.sender} + Actors(r.w.log, |w.log|), payers);
    } else {
      HandleEffect(env, w, m);
      if Paid(w, r.w, Effects.Signers(m)) {
        SoundMono(w.bank, r.w.bank, Effects.Signers(m), payers);
      } else {
        CreateKeepsBank(env, w, r);
      }
    }
  }

  lemma CreateKeepsBank<T>(env: Env, w: World, r: Res<T>)
    requires CreateEffect(env, w, r)
    ensures r.w.bank == w.bank
  {
    hide Compiles;
  }

  /** Over any history the supply of every denomination stays what it was, and no balance ever
      ends a transaction below zero. */
  lemma {:induction false} HistoryConserves(env: Env, w: World, txs: seq<Tx>, d: Denom)
    ensures var v := History(env, w, txs);
            Total(v.bank, d) == Total(w.bank, d) && (NonNegative(w.bank) ==> NonNegative(v.bank))
    decreases |txs|
  {
    hide Handle, Total, NonNegative, Balance;
    if txs != [] {
      HandleIsSound(env, Begin(w, txs[0]), txs[0].m);
      HistoryConserves(env, Deliver(env, w, txs[0]), txs[1..], d);
    }
  }

  /** In one transaction only its signers and the contracts it ran can lose coins. */
  lemma DeliverSpendsOnlyWhatItMay(env: Env, w: World, tx: Tx, a: bytes, d: Denom)
    ensures var v := Deliver(env, w, tx);
            Balance(v.bank, a, d) < Balance(w.bank, a, d) ==> a in GetSigners(tx.m) || a in Actors(v.log, |w.log|)
  {
    hide Handle, Total, NonNegative, Balance, Actors;
    HandleIsSound(env, Begin(w, tx), tx.m);
  }

  // ------------------------------------------------------------------ uploads

  /** A transaction stores code only as created by one of its signers or by a contract it ran. */
  lemma DeliverUploadsOwn(env: Env, w: World, tx: Tx)
    ensures var v := Deliver(env, w, tx);
            UploadedBy(w, v, Effects.Signers(tx.m) + Actors(v.log, |w.log|))
  {
    hide Handle, Run, Create, Transfer, Sound, Actors;
    var b := Begin(w, tx);
    var creators := Effects.Signers(tx.m) + Actors(Deliver(env, w, tx).log, |w.log|);
    if Handle(env, b, tx.m).out.Ok? {
      if Scheduled(tx.m) != [] {
        HandleIsRun(env, b, tx.m);
        RunUploads(env, b, Scheduled(tx.m), {}, |w.log|);
      } else if tx.m.StoreCode? {
        HandleEnds(env, b, tx.m);
        CreateUploads(env, b, tx.m.sender, tx.m.code, tx.m.source, tx.m.builder);
        assert tx.m.sender in GetSigners(tx.m);
      } else {
        HandleEnds(env, b, tx.m);
        if tx.m.BankSend? || tx.m.BankMultiSend? {
          TransferEffect(env, b, tx.m);
        }
      }
    }
  }

  // ------------------------------------------------------------------ draws over a history

  lemma HandleDrawsInOrder(env: Env, w: World, m: SdkMsg)
    requires w.meter.Metered?
    ensures DrawsInOrder(w, Handle(env, w, m).w) && DrawsPaid(w, Handle(env, w, m).w)
  {
    hide Handle, Run, Paid, CreateEffect, DrawsInOrder, DrawnIDs;
    if Scheduled(m) != [] {
      HandleIsRun(env, w, m);
      RunDrawsInOrder(env, w, Scheduled(m));
    } else {
      HandleEffect(env, w, m);
      EffectIsQuiet(env, w, Handle(env, w, m), Effects.Signers(m));
      NothingDrawn(w, Handle(env, w, m).w);
    }
  }

  lemma DeliverDrawsInOrder(env: Env, w: World, tx: Tx)
    ensures var v := Deliver(env, w, tx);
            DrawsInOrder(w, v) && |DrawnIDs(News(w, v))| <= GasUsed(env, w, tx)
  {
    hide Handle, DrawnIDs, IDsFrom;
    HandleDrawsInOrder(env, Begin(w, tx), tx.m);
    NothingDrawn(w, w);
    var r := Handle(env, Begin(w, tx), tx.m);
    if r.out.Ok? {
      assert News(w, Deliver(env, w, tx)) == News(Begin(w, tx), r.w);
    } else {
      assert News(w, Deliver(env, w, tx)) == News(w, w);
    }
  }

  /** Over any history the counter hands out one id after the other; undone transactions give
      theirs back. */
  lemma {:induction false} HistoryDrawsInOrder(env: Env, w: World, txs: seq<Tx>)
    ensures var v := History(env, w, txs);
            DrawsInOrder(w, v) && |DrawnIDs(News(w, v))| <= GasUsedOver(env, w, txs)
    decreases |txs|
  {
    hide Deliver, DrawnIDs, IDsFrom, GasUsed, DrawsInOrder;
    if txs == [] {
      NothingDrawn(w, w);
    } else {
      var v := Deliver(env, w, txs[0]);
      DeliverDrawsInOrder(env, w, txs[0]);
      HistoryDrawsInOrder(env, v, txs[1..]);
      DrawsInOrderTrans(w, v, History(env, w, txs));
    }
  }

  // ------------------------------------------------------------------ when an address is taken

  /** Instantiating a code whose next address has an account leaves the chain as it was, whoever
      asks, with whatever message, funds and gas. */
  lemma TakenAddressBlocks(env: Env, w: World, tx: Tx)
    requires w.meter.Unmetered? && tx.m.InstantiateContract?
    requires NewAddress(env, w, tx.m.codeID) in w.bank
    ensures Deliver(env, w, tx) == w
  {
    hide Instantiate, NewAddress;
    var b := Begin(w, tx);
    assert NewAddress(env, b, tx.m.codeID) == NewAddress(env, w, tx.m.codeID) by {
      SameNewAddress(env, b, w, tx.m.codeID);
    }
    TakenAddressFails(env, b, tx.m.codeID, tx.m.sender, tx.m.initMsg, tx.m.funds);
  }

  lemma SameNewAddress(env: Env, v: World, w: World, codeID: uint64)
    requires v.reg.instanceSeq == w.reg.instanceSeq
    ensures NewAddress(env, v, codeID) == NewAddress(env, w, codeID)
  {
  }

  /** Since the failed transaction is undone, the counter with it, it fails however often and in
      whatever variation it is repeated, at any value of the counter. */
  lemma {:induction false} TakenAddressBlocksForever(env: Env, w: World, codeID: uint64, txs: seq<Tx>)
    requires w.meter.Unmetered? && NewAddress(env, w, codeID) in w.bank
    requires forall tx :: tx in txs ==> tx.m.InstantiateContract? && tx.m.codeID == codeID
    ensures History(env, w, txs) == w
    decreases |txs|
  {
    hide Deliver, NewAddress;
    if txs != [] {
      assert txs[0] in txs;
      TakenAddressBlocks(env, w, txs[0]);
      TakenAddressBlocksForever(env, w, codeID, txs[1..]);
    }
  }

  lemma {:induction false} HistoryKeepsAccounts(env: Env, w: World, txs: seq<Tx>)
    ensures w.bank.Keys <= History(env, w, txs).bank.Keys
    decreases |txs|
  {
    hide Handle, Total, NonNegative, Balance, Actors;
    if txs != [] {
      HandleIsSound(env, Begin(w, txs[0]), txs[0].m);
      HistoryKeepsAccounts(env, Deliver(env, w, txs[0]), txs[1..]);
    }
  }

  /** A code whose next address is taken is refused for as long as the counter stands still,
      whatever else happens on the chain; and at any time the account check refuses it, with gas
      to get that far, exactly when the address next in line then has an account. */
  lemma RefusedWhileCounterStands(env: Env, w: World, txs: seq<Tx>, tx: Tx)
    requires w.meter.Unmetered? && tx.m.InstantiateContract?
    ensures var v := History(env, w, txs);
            && (NewAddress(env, w, tx.m.codeID) in w.bank && v.reg.instanceSeq == w.reg.instanceSeq ==> Deliver(env, v, tx) == v)
            && (InstantiateHead(env, Begin(v, tx), tx.m.codeID, tx.m.sender, tx.m.initMsg, tx.m.funds).out == Err(AccountExists)
                <==> NewAddress(env, v, tx.m.codeID) in v.bank && DrawCost(env, Begin(v, tx), tx.m.codeID) <= tx.gasLimit)
  {
    hide History, Deliver, InstantiateHead, NewAddress, DrawCost;
    var v, c := History(env, w, txs), tx.m.codeID;
    var b := Begin(v, tx);
    HistoryIsUnmetered(env, w, txs);
    HistoryKeepsAccounts(env, w, txs);
    SameNewAddress(env, b, v, c);
    AccountCheckFiresIff(env, b, c, tx.m.sender, tx.m.initMsg, tx.m.funds);
    if NewAddress(env, w, c) in w.bank && v.reg.instanceSeq == w.reg.instanceSeq {
      SameNewAddress(env, v, w, c);
      TakenAddressBlocks(env, v, tx);
    }
  }

  /** The counter stands still over a history exactly if no transaction that took effect drew an
      instance, or a multiple of 2^64 did. */
  lemma CounterStandsIff(env: Env, w: World, txs: seq<Tx>)
    requires w.reg.instanceSeq.Some?
    ensures var v := History(env, w, txs);
            && w.log <= v.log
            && (v.reg.instanceSeq == w.reg.instanceSeq <==> |DrawnIDs(News(w, v))| % TWO_64 == 0)
  {
    hide History, DrawnIDs, IDsFrom;
    HistoryDrawsInOrder(env, w, txs);
    var v := History(env, w, txs);
    WrapFixed(w.reg.instanceSeq.value, |DrawnIDs(News(w, v))|);
  }
}
