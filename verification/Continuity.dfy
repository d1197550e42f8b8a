/** Life goes on after an import: a call that performs no launch behaves on the imported state as
    it would have on the original one. The two differ only in the instance counter. */
module Continuity {
  import opened Bytes
  import opened Outcome
  import opened Layout
  import opened Coins
  import opened Bank
  import opened Gas
  import opened Types
  import opened Engine
  import opened Machine
  import opened Effects
  import opened Registrations
  import opened Lifecycle
  import opened Invocations
  import opened Genesis
  import opened Chain
  import opened Lives

  /** The same accounts, gas and store contents, except perhaps for the instance counter. The logs
      and the code kept on disk, which no call reads, may differ too. */
  ghost predicate Alike(w: World, v: World) {
    && v.bank == w.bank && v.meter == w.meter
    && v.reg.codeSeq == w.reg.codeSeq && v.reg.codes == w.reg.codes && v.reg.contracts == w.reg.contracts
    && forall a: address :: SubStore(v.reg, a) == SubStore(w.reg, a)
  }

  lemma LookupAlike(w: World, v: World, s: Slot)
    requires Alike(w, v) && s != LastInstance
    ensures Lookup(v.reg, s) == Lookup(w.reg, s)
  {
  }

  lemma AlikeBut(w: World, v: World, w': World, v': World)
    requires Alike(w, v)
    requires w'.reg == w.reg && v'.reg == v.reg && w'.bank == v'.bank && w'.meter == v'.meter
    ensures Alike(w', v')
  {
  }

  lemma ReadAlike(env: Env, w: World, v: World, s: Slot)
    requires Alike(w, v) && s != LastInstance
    ensures var r, q := Read(env, w, s), Read(env, v, s);
            q.out == r.out && Alike(r.w, q.w)
  {
    LookupAlike(w, v, s);
    hide Lookup, Encode, SubStore;
  }

  lemma PutKeepsData(reg: Registry, s: Slot, value: Value, a: address)
    requires !s.Data? && Fits(s, value)
    ensures SubStore(Put(reg, s, value), a) == SubStore(reg, a)
  {
  }

  lemma PutAlike(w: World, v: World, s: Slot, value: Value)
    requires Alike(w, v) && s != LastInstance && !s.Data? && Fits(s, value)
    ensures Alike(w.(reg := Put(w.reg, s, value)), v.(reg := Put(v.reg, s, value)))
  {
    hide SubStore;
    forall a: address ensures SubStore(Put(v.reg, s, value), a) == SubStore(Put(w.reg, s, value), a) {
      PutKeepsData(v.reg, s, value, a);
      PutKeepsData(w.reg, s, value, a);
    }
  }

  lemma ChargeAlike(w: World, v: World, amount: nat, what: Charged)
    requires Alike(w, v)
    ensures var r, q := Charge(w, amount, what), Charge(v, amount, what);
            q.out == r.out && Alike(r.w, q.w)
  {
    assert v.meter == w.meter;
    AlikeBut(w, v, Charge(w, amount, what).w, Charge(v, amount, what).w);
  }

  lemma WriteAlike(env: Env, w: World, v: World, s: Slot, value: Value)
    requires Alike(w, v) && s != LastInstance && !s.Data? && Fits(s, value)
    ensures var r, q := Write(env, w, s, value), Write(env, v, s, value);
            q.out == r.out && Alike(r.w, q.w)
  {
    hide Encode, Put, Alike, Charge;
    var cost := env.writeCost(Encode(s), value);
    ChargeAlike(w, v, cost, StoreAccess);
    var r, q := Charge(w, cost, StoreAccess), Charge(v, cost, StoreAccess);
    PutAlike(r.w, q.w, s, value);
  }

  lemma GetAccountAlike(env: Env, w: World, v: World, a: bytes)
    requires Alike(w, v)
    ensures var r, q := GetAccount(env, w, a), GetAccount(env, v, a);
            q.out == r.out && Alike(r.w, q.w)
  {
    hide SubStore;
  }

  lemma TransferAlike(env: Env, w: World, v: World, m: SdkMsg)
    requires Alike(w, v) && (m.BankSend? || m.BankMultiSend?)
    ensures var r, q := Transfer(env, w, m), Transfer(env, v, m);
            q.out == r.out && Alike(r.w, q.w)
  {
    hide SubStore, Settle;
  }

  lemma IncrementAlike(env: Env, w: World, v: World)
    requires Alike(w, v)
    ensures var r, q := AutoIncrementID(env, w, LastCode), AutoIncrementID(env, v, LastCode);
            q.out == r.out && Alike(r.w, q.w)
  {
    hide Read, Write, Alike;
    ReadAlike(env, w, v, LastCode);
    var r, q := Read(env, w, LastCode), Read(env, v, LastCode);
    if r.out.Ok? {
      ReadIsLookup(env, w, LastCode);
      var id: uint64 := if r.out.value.Some? then BigEndianToUint64(r.out.value.value.raw) else 1;
      WriteAlike(env, r.w, q.w, LastCode, Counter(Uint64ToBigEndian((id + 1) % TWO_64)));
    }
  }

  lemma ReadIsLookup(env: Env, w: World, s: Slot)
    ensures Read(env, w, s).out.Ok? ==> Read(env, w, s).out.value == Lookup(w.reg, s)
  {
    hide Lookup, Encode;
  }

  lemma CreateAlike(env: Env, w: World, v: World, creator: bytes, wasmCode: bytes, source: string, builder: string)
    requires Alike(w, v)
    ensures var r, q := Create(env, w, creator, wasmCode, source, builder), Create(env, v, creator, wasmCode, source, builder);
            q.out == r.out && Alike(r.w, q.w)
  {
    hide AutoIncrementID, Write, Uncompress, Compiles, SubStore;
    var code := Uncompress(env, wasmCode);
    if code.Some? && Compiles(env, code.value) {
      var hash := env.codeHash(code.value);
      var w0, v0 := w.(vm := w.vm[hash := code.value]), v.(vm := v.vm[hash := code.value]);
      AlikeBut(w, v, w0, v0);
      IncrementAlike(env, w0, v0);
      var r, q := AutoIncrementID(env, w0, LastCode), AutoIncrementID(env, v0, LastCode);
      if r.out.Ok? {
        WriteAlike(env, r.w, q.w, Code(r.out.value), CodeValue(CodeInfo(hash, creator, source, builder)));
      }
    }
  }

  lemma StoreAlike(w: World, v: World, self: address, m: map<bytes, bytes>)
    requires Alike(w, v)
    ensures Alike(w.(reg := w.reg.(data := w.reg.data[self := m])), v.(reg := v.reg.(data := v.reg.data[self := m])))
  {
    var wReg, vReg := w.reg.(data := w.reg.data[self := m]), v.reg.(data := v.reg.data[self := m]);
    forall a: address ensures SubStore(vReg, a) == SubStore(wReg, a) {
      assert SubStore(v.reg, a) == SubStore(w.reg, a);
    }
  }

  lemma LogAlike(w: World, v: World, e: Event)
    requires Alike(w, v)
    ensures Alike(Log(w, e), Log(v, e))
  {
    AlikeBut(w, v, Log(w, e), Log(v, e));
  }

  lemma InvokeAlike(env: Env, w: World, v: World, entry: Entry, codeHash: bytes, self: address, signer: bytes,
                    coins: seq<Coin>, balance: Balances, msg: bytes)
    requires w.meter.Metered? && Alike(w, v)
    ensures v.meter.Metered?
    ensures var r := Invoke(env, w, entry, codeHash, self, signer, coins, balance, msg);
            var q := Invoke(env, v, entry, codeHash, self, signer, coins, balance, msg);
            q.out == r.out && Alike(r.w, q.w)
  {
    assert v.meter == w.meter && SubStore(v.reg, self) == SubStore(w.reg, self);
    hide ApplyUpdates, GasForContract, ToWasm, ChargeFor, Later, Alike, Charge, SubStore, Log;
    var store := SubStore(w.reg, self);
    var inp := RunInput(entry, codeHash, signer, ToWasm(coins), self, balance, msg, store,
                        GasForContract(w.meter.limit, w.meter.consumed));
    var run := env.run(inp);
    var after := ApplyUpdates(store, run.updates);
    var w1, v1 := w.(reg := w.reg.(data := w.reg.data[self := after])), v.(reg := v.reg.(data := v.reg.data[self := after]));
    StoreAlike(w, v, self, after);
    LogAlike(w1, v1, Ran(self));
    ChargeAlike(Log(w1, Ran(self)), Log(v1, Ran(self)), run.storageGas, StoreAccess);
    var w2, v2 := Charge(Log(w1, Ran(self)), run.storageGas, StoreAccess).w, Charge(Log(v1, Ran(self)), run.storageGas, StoreAccess).w;
    if run.result.Some? {
      var used := run.result.value.gasUsed;
      LogAlike(w2, v2, Billed(inp, used, ChargeFor(used)));
      ChargeAlike(Log(w2, Billed(inp, used, ChargeFor(used))), Log(v2, Billed(inp, used, ChargeFor(used))), ChargeFor(used), WasmContract);
    }
  }

  lemma ContractInstanceAlike(env: Env, w: World, v: World, addr: bytes)
    requires Alike(w, v)
    ensures var r, q := ContractInstance(env, w, addr), ContractInstance(env, v, addr);
            q.out == r.out && Alike(r.w, q.w)
  {
    hide Read, Alike;
    ReadAlike(env, w, v, Contract(addr));
    ReadIsLookup(env, w, Contract(addr));
    var r, q := Read(env, w, Contract(addr)), Read(env, v, Contract(addr));
    if r.out.Ok? && r.out.value.Some? {
      ReadAlike(env, r.w, q.w, Code(r.out.value.value.contract.codeID));
    }
  }

  lemma ExecuteHeadAlike(env: Env, w: World, v: World, addr: bytes, caller: bytes, msg: bytes, coins: seq<Coin>)
    requires w.meter.Metered? && Alike(w, v)
    ensures v.meter.Metered?
    ensures var r, q := ExecuteHead(env, w, addr, caller, msg, coins), ExecuteHead(env, v, addr, caller, msg, coins);
            q.out == r.out && Alike(r.w, q.w)
  {
    hide ContractInstance, Transfer, GetAccount, Invoke, SubStore;
    var w0, v0 := Log(w, Called(addr)), Log(v, Called(addr));
    AlikeBut(w, v, w0, v0);
    hide Alike;
    ContractInstanceAlike(env, w0, v0, addr);
    var r1, q1 := ContractInstance(env, w0, addr), ContractInstance(env, v0, addr);
    if r1.out.Ok? {
      var m := BankSend(caller, addr, coins);
      TransferAlike(env, r1.w, q1.w, m);
      var r2, q2 := Transfer(env, r1.w, m), Transfer(env, q1.w, m);
      if r2.out.Ok? {
        GetAccountAlike(env, r2.w, q2.w, addr);
        var r3, q3 := GetAccount(env, r2.w, addr), GetAccount(env, q2.w, addr);
        if r3.out.Ok? && r3.out.value.Some? {
          InvokeAlike(env, r3.w, q3.w, OnHandle, r1.out.value.hash, addr, caller, coins, r3.out.value.value, msg);
        }
      }
    }
  }

  lemma StepSdkAlike(env: Env, w: World, v: World, self: address, m: SdkMsg)
    requires w.meter.Metered? && Alike(w, v)
    ensures v.meter.Metered?
    ensures var r, q := StepSdk(env, w, self, m), StepSdk(env, v, self, m);
            q.out == r.out && Alike(r.w, q.w)
  {
    assert v.meter == w.meter;
    hide Transfer, Create, Alike;
    match m {
      case StoreCode(sender, code, source, builder) =>
        CreateAlike(env, w, v, sender, code, source, builder);
      case BankSend(_, _, _) =>
        TransferAlike(env, w, v, m);
      case BankMultiSend(_, _) =>
        TransferAlike(env, w, v, m);
      case _ =>
    }
  }

  lemma StepSendAlike(env: Env, w: World, v: World, self: address, origin: Text, target: Text, tokens: seq<WasmCoin>)
    requires w.meter.Metered? && Alike(w, v)
    ensures v.meter.Metered?
    ensures var r, q := StepSend(env, w, self, origin, target, tokens), StepSend(env, v, self, origin, target, tokens);
            q.out == r.out && Alike(r.w, q.w)
  {
    assert v.meter == w.meter;
    hide StepSdk, FromWasm, Alike;
    var converted := ConvertSendMsg(env, origin, target, tokens);
    if converted.Ok? {
      StepSdkAlike(env, w, v, self, converted.value);
    }
  }

  /** Every step but a launch does the same on both. */
  lemma StepAlike(env: Env, w: World, v: World, t: Task)
    requires w.meter.Metered? && Alike(w, v) && !t.Launch?
    ensures v.meter.Metered?
    ensures var r, q := Step(env, w, t), Step(env, v, t);
            q.out == r.out && Alike(r.w, q.w)
  {
    assert v.meter == w.meter;
    hide ExecuteHead, StepSdk, StepSend, Write, Alike, Weight;
    match t {
      case Call(addr, caller, msg, coins) =>
        ExecuteHeadAlike(env, w, v, addr, caller, msg, coins);
      case Register(instance, info) =>
        WriteAlike(env, w, v, Contract(instance), ContractValue(info));
      case Dispatch(self, m) =>
        if m.send.Some? {
          StepSendAlike(env, w, v, self, m.send.value.from, m.send.value.to, m.send.value.amount);
        } else if m.contract.Some? {
          StepSendAlike(env, w, v, self, Parsed(self), m.contract.value.contractAddr, m.contract.value.send);
        } else if m.opaque_.Some? && m.opaque_.value.Some? {
          StepSdkAlike(env, w, v, self, m.opaque_.value.value);
        }
    }
  }

  // ------------------------------------------------------------------ whole runs

  /** No task that a run performs is a launch. Only launches read the instance counter. */
  predicate Launchless(env: Env, w: World, ts: seq<Task>)
    requires w.meter.Metered?
    decreases GasLeft(w), Weight(ts)
  {
    ts == [] || (&& !ts[0].Launch?
                 && var s := Step(env, w, ts[0]);
                    s.out.Ok? ==>
                      (WeightOfConcat(s.out.value, ts[1..]);
                       Launchless(env, s.w, s.out.value + ts[1..])))
  }

  /** A run that performs no launch goes the same way on both. */
  lemma {:induction false} RunAlike(env: Env, w: World, v: World, ts: seq<Task>)
    requires w.meter.Metered? && Alike(w, v) && Launchless(env, w, ts)
    ensures v.meter.Metered?
    ensures var r, q := Run(env, w, ts), Run(env, v, ts);
            q.out == r.out && Alike(r.w, q.w)
    decreases GasLeft(w), Weight(ts)
  {
    assert v.meter == w.meter;
    if ts != [] {
      hide Step, Alike;
      var s, rest := Step(env, w, ts[0]), ts[1..];
      StepAlike(env, w, v, ts[0]);
      if s.out.Ok? {
        WeightOfConcat(s.out.value, rest);
        RunAlike(env, s.w, Step(env, v, ts[0]).w, s.out.value + rest);
      }
    }
  }

  /** A launch draws an id or runs out of gas for it. */
  lemma LaunchDrawsOrStops(env: Env, w: World, t: Task)
    requires w.meter.Metered? && t.Launch?
    ensures var r := Step(env, w, t);
            DrawnIDs(News(w, r.w)) != [] || r.out == Panicked(OutOfGas(StoreAccess))
  {
    hide InstantiateHead, Weight, GenerateContractAddress, DrawnIDs;
    var gen := GenerateContractAddress(env, w, t.codeID);
    DrawEnds(env, w, t.codeID);
    HeadAfterDraw(env, w, t.codeID, t.creator, t.initMsg, t.deposit);
    if gen.out.Ok? {
      DrawIsLogged(env, w, t.codeID);
      var news := News(w, Step(env, w, t).w);
      assert news[|gen.w.log| - 1 - |w.log|].Generated?;
      NoneDrawn(news);
    }
  }

  lemma HeadAfterDraw(env: Env, w: World, codeID: uint64, creator: bytes, initMsg: bytes, deposit: seq<Coin>)
    requires w.meter.Metered?
    ensures var gen, head := GenerateContractAddress(env, w, codeID), InstantiateHead(env, w, codeID, creator, initMsg, deposit);
            gen.w.log <= head.w.log && (gen.out.Panicked? ==> head.out == Panicked(gen.out.panic))
  {
    hide SetUp, GenerateContractAddress, GetAccount;
  }

  lemma DrawIsLogged(env: Env, w: World, codeID: uint64)
    requires w.meter.Metered?
    ensures var gen := GenerateContractAddress(env, w, codeID);
            gen.out.Ok? ==> |gen.w.log| > |w.log| && gen.w.log[|gen.w.log| - 1].Generated?
  {
    hide AutoIncrementID;
  }

  lemma OthersDrawNothing(env: Env, w: World, t: Task)
    requires w.meter.Metered? && !t.Launch?
    ensures DrawnIDs(News(w, Step(env, w, t).w)) == []
  {
    hide ExecuteHead, StepSdk, StepSend, Encode, Weight, Sound, Compiles, DrawnIDs;
    var v := Step(env, w, t).w;
    match t {
      case Call(addr, caller, msg, coins) =>
        CallDrawsNothing(env, w, addr, caller, msg, coins);
      case Register(instance, info) =>
        RegisterEffect(env, w, instance, info);
      case Dispatch(self, m) =>
        DispatchHasEffect(env, w, self, m);
    }
    NoneDrawn(News(w, v));
  }

  lemma CallDrawsNothing(env: Env, w: World, addr: bytes, caller: bytes, msg: bytes, coins: seq<Coin>)
    requires w.meter.Metered?
    ensures var v := ExecuteHead(env, w, addr, caller, msg, coins).w;
            forall i :: |w.log| <= i < |v.log| ==> !v.log[i].Generated?
  {
    hide ExecuteHead, Sound, Invoked;
    ExecuteHeadEffect(env, w, addr, caller, msg, coins);
    var r := ExecuteHead(env, w, addr, caller, msg, coins);
    var w1 := Log(w, Called(addr)).(bank := r.w.bank);
    if |addr| == 20 && Invoked(env, w1, r.w, addr, r.out.Ok?) {
      InvokedDrawsNothing(env, w1, r.w, addr, r.out.Ok?);
      assert r.w.log[|w.log|] == w1.log[|w.log|];
    }
  }

  /** Whether a launch was performed shows in the history: unless the run ended for want of gas in
      the store, it performed none exactly if it drew no instance. */
  lemma {:induction false} LaunchlessIff(env: Env, w: World, ts: seq<Task>)
    requires w.meter.Metered?
    ensures var r := Run(env, w, ts);
            && (Launchless(env, w, ts) ==> DrawnIDs(News(w, r.w)) == [])
            && (DrawnIDs(News(w, r.w)) == [] && r.out != Panicked(OutOfGas(StoreAccess)) ==> Launchless(env, w, ts))
    decreases GasLeft(w), Weight(ts)
  {
    hide Step, DrawnIDs;
    if ts == [] {
      NoneDrawn([]);
    } else {
      var s, r := Step(env, w, ts[0]), Run(env, w, ts);
      if s.out.Ok? {
        WeightOfConcat(s.out.value, ts[1..]);
        LaunchlessIff(env, s.w, s.out.value + ts[1..]);
      }
      assert News(w, r.w) == News(w, s.w) + News(s.w, r.w);
      DrawnIDsOfConcat(News(w, s.w), News(s.w, r.w));
      if ts[0].Launch? {
        LaunchDrawsOrStops(env, w, ts[0]);
      } else {
        OthersDrawNothing(env, w, ts[0]);
        NoneDrawn([]);
      }
    }
  }

  /** An Execute whose call tree performs no launch ends alike: with the same outcome and data,
      gas, coins, codes, contracts and stores. */
  lemma ExecuteAlike(env: Env, w: World, v: World, addr: bytes, caller: bytes, msg: bytes, coins: seq<Coin>)
    requires w.meter.Metered? && Alike(w, v) && Launchless(env, w, [Call(addr, caller, msg, coins)])
    ensures v.meter.Metered?
    ensures var r, q := Execute(env, w, addr, caller, msg, coins), Execute(env, v, addr, caller, msg, coins);
            q.out == r.out && Alike(r.w, q.w)
  {
    assert v.meter == w.meter;
    hide Execute, ExecuteHead, Alike, Run, Launchless;
    ExecuteIsRun(env, w, addr, caller, msg, coins);
    ExecuteIsRun(env, v, addr, caller, msg, coins);
    RunAlike(env, w, v, [Call(addr, caller, msg, coins)]);
    ExecuteHeadAlike(env, w, v, addr, caller, msg, coins);
    ExecuteReturns(env, w, addr, caller, msg, coins);
    ExecuteReturns(env, v, addr, caller, msg, coins);
  }

  // ------------------------------------------------------------------ transactions

  /** Handling the message performs no launch. */
  predicate HandlesLaunchless(env: Env, w: World, m: SdkMsg)
    requires w.meter.Metered?
  {
    Launchless(env, w, Scheduled(m))
  }

  lemma HandleAlike(env: Env, w: World, v: World, m: SdkMsg)
    requires w.meter.Metered? && Alike(w, v) && HandlesLaunchless(env, w, m)
    ensures v.meter.Metered?
    ensures var r, q := Handle(env, w, m), Handle(env, v, m);
            q.out == r.out && Alike(r.w, q.w)
  {
    assert v.meter == w.meter;
    if Scheduled(m) != [] {
      hide Handle, Run, Alike, Launchless;
      HandleIsRun(env, w, m);
      HandleIsRun(env, v, m);
      RunAlike(env, w, v, Scheduled(m));
    } else {
      UnscheduledAlike(env, w, v, m);
    }
  }

  lemma UnscheduledAlike(env: Env, w: World, v: World, m: SdkMsg)
    requires w.meter.Metered? && Alike(w, v) && Scheduled(m) == []
    ensures v.meter.Metered?
    ensures var r, q := Handle(env, w, m), Handle(env, v, m);
            q.out == r.out && Alike(r.w, q.w)
  {
    assert v.meter == w.meter;
    hide Create, Transfer, Alike;
    match m {
      case StoreCode(sender, code, source, builder) =>
        CreateAlike(env, w, v, sender, code, source, builder);
      case Other(_) =>
      case _ =>
        TransferAlike(env, w, v, m);
    }
  }

  /** None of the transactions performs a launch. */
  ghost predicate LaunchlessHistory(env: Env, w: World, txs: seq<Tx>)
    decreases |txs|
  {
    txs == [] || (&& HandlesLaunchless(env, Begin(w, txs[0]), txs[0].m)
                  && LaunchlessHistory(env, Deliver(env, w, txs[0]), txs[1..]))
  }

  /** How each transaction ends. */
  function Outcomes(env: Env, w: World, txs: seq<Tx>): seq<Out<()>>
    decreases |txs|
  {
    if txs == [] then [] else [Handle(env, Begin(w, txs[0]), txs[0].m).out] + Outcomes(env, Deliver(env, w, txs[0]), txs[1..])
  }

  lemma DeliverAlike(env: Env, w: World, v: World, tx: Tx)
    requires Alike(w, v) && HandlesLaunchless(env, Begin(w, tx), tx.m)
    ensures Alike(Deliver(env, w, tx), Deliver(env, v, tx))
    ensures Handle(env, Begin(v, tx), tx.m).out == Handle(env, Begin(w, tx), tx.m).out
  {
    hide Handle, HandlesLaunchless;
    HandleAlike(env, Begin(w, tx), Begin(v, tx), tx.m);
  }

  lemma {:induction false} HistoryAlike(env: Env, w: World, v: World, txs: seq<Tx>)
    requires Alike(w, v) && LaunchlessHistory(env, w, txs)
    ensures Alike(History(env, w, txs), History(env, v, txs)) && Outcomes(env, v, txs) == Outcomes(env, w, txs)
    decreases |txs|
  {
    hide Handle, Deliver, Alike, HandlesLaunchless;
    if txs != [] {
      DeliverAlike(env, w, v, txs[0]);
      HistoryAlike(env, Deliver(env, w, txs[0]), Deliver(env, v, txs[0]), txs[1..]);
    }
  }

  // ------------------------------------------------------------------ after an import

  /** A reachable state exported, and imported beside the same accounts, differs from the original
      in the instance counter only. */
  lemma ImportIsAlike(env: Env, start: World, eras: seq<Era>, txs: seq<Tx>, vm: map<bytes, bytes>)
    requires Possible(env, start, eras, txs)
    ensures var w := Reached(env, start, eras, txs);
            Alike(w, Restart(env, w, w.bank, vm))
  {
    hide Export, Import, SubStore, Inv, Reached, Possible;
    ReachedIsHealthy(env, start, eras, txs);
    var w := Reached(env, start, eras, txs);
    ImportUndoesExport(env, w, Blank(w.bank, vm));
    forall a: address ensures a !in w.reg.contracts ==> SubStore(w.reg, a) == map[] {
      ReachableOwned(env, start, eras, txs, a);
    }
  }

  /** The chain goes on after an import as it would have without: as long as no launch is
      performed, each later transaction ends the same way, and accounts, codes, contracts and
      stores stay the same. */
  lemma ImportedChainGoesOn(env: Env, start: World, eras: seq<Era>, txs: seq<Tx>, vm: map<bytes, bytes>, more: seq<Tx>)
    requires Possible(env, start, eras, txs)
    requires LaunchlessHistory(env, Reached(env, start, eras, txs), more)
    ensures var w := Reached(env, start, eras, txs);
            var v := Restart(env, w, w.bank, vm);
            Outcomes(env, v, more) == Outcomes(env, w, more) && Alike(History(env, w, more), History(env, v, more))
  {
    hide Reached, Restart, History, Outcomes, Alike, LaunchlessHistory, Possible;
    ImportIsAlike(env, start, eras, txs, vm);
    var w := Reached(env, start, eras, txs);
    HistoryAlike(env, w, Restart(env, w, w.bank, vm), more);
  }
}
