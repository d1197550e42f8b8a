/** When a wasm charge can exhaust the meter: exactly when some run, on an occasion that can
    arise, reports more gas than was left beside its storage accesses. */
module Affordability {
  import opened Bytes
  import opened Outcome
  import opened Layout
  import opened Coins
  import opened Bank
  import opened Gas
  import opened Types
  import opened Engine
  import opened Machine
  import opened Effects
  import opened Lifecycle

  const BROKE: Panic := OutOfGas(WasmContract)

  /** With `left` gas on the meter, a run's storage gas can be paid, but not its charge as well. */
  predicate Overruns(left: nat, run: RunOutput) {
    run.result.Some? && run.storageGas <= left < run.storageGas + ChargeFor(run.result.value.gasUsed)
  }

  /** An invocation is stopped by its wasm charge if and only if the meter was within its limit and
      the run overruns what was left. */
  lemma InvokeBrokeIff(env: Env, w: World, entry: Entry, codeHash: bytes, self: address, signer: bytes,
                       coins: seq<Coin>, balance: Balances, msg: bytes)
    requires w.meter.Metered?
    ensures var gas := GasForContract(w.meter.limit, w.meter.consumed);
            var inp := RunInput(entry, codeHash, signer, ToWasm(coins), self, balance, msg, SubStore(w.reg, self), gas);
            Invoke(env, w, entry, codeHash, self, signer, coins, balance, msg).out == Panicked(BROKE)
            <==> w.meter.consumed <= w.meter.limit && Overruns(GasLeft(w), env.run(inp))
  {
    hide ApplyUpdates, ToWasm, GasForContract;
  }

  // ------------------------------------------------------------------ occasions

  /** An occasion to run a contract: the input its code gets, the coins sent and the balances before
      that, the records of the contract and its code, and the instance counter. */
  datatype Occasion = Occasion(inp: RunInput, coins: seq<Coin>, before: Ledger, record: ContractInfo, code: CodeInfo,
                               counter: Option<uint64>)

  /** Execute, or Instantiate, would come to give the code this input. */
  predicate Arises(env: Env, o: Occasion) {
    var inp := o.inp;
    && inp.codeHash == o.code.hash && inp.sentFunds == ToWasm(o.coins)
    && (var paid := Send(env.denomOk, o.before, inp.signer, inp.contract, o.coins);
        paid.Ok? && Held(paid.value, inp.contract) == inp.balance)
    && (inp.entry.OnInit? ==>
          && inp.contract == AddrFromUint64(env, ContractID(o.record.codeID, Next(o.counter)))
          && inp.contract !in o.before)
  }

  /** What is spent before the code is run. */
  function CostOf(env: Env, o: Occasion): nat {
    var inp := o.inp;
    var lookUp := if inp.entry.OnInit? then CounterPrice(env, o.counter) + env.accountCost(inp.contract)
                  else env.readCost(Encode(Contract(inp.contract)), Some(ContractValue(o.record)));
    lookUp + env.readCost(Encode(Code(o.record.codeID)), Some(CodeValue(o.code)))
    + env.bankCost(BankSend(inp.signer, inp.contract, o.coins)) + env.accountCost(inp.contract)
  }

  /** On every occasion that can arise, at every meter that grants the input its gas, the run does
      not overrun what is left. */
  ghost predicate Affordable(env: Env) {
    forall o: Occasion, limit: uint64, consumed: nat ::
      Arises(env, o) && CostOf(env, o) <= consumed <= limit && o.inp.gas == GasForContract(limit, consumed)
      ==> !Overruns(limit - consumed, env.run(o.inp))
  }

  /** Contracts report no more gas than they were granted. */
  ghost predicate Honest(env: Env) {
    forall inp: RunInput :: var run := env.run(inp); run.result.Some? ==> run.result.value.gasUsed <= inp.gas
  }

  /** Storage accesses during a run are not charged to the meter. */
  ghost predicate FreeStorage(env: Env) {
    forall inp: RunInput :: env.run(inp).storageGas == 0
  }

  lemma ChargeMonotone(x: nat, y: nat)
    requires x <= y
    ensures ChargeFor(x) <= ChargeFor(y)
  {
  }

  lemma HonestAndFreeIsAffordable(env: Env)
    requires Honest(env) && FreeStorage(env)
    ensures Affordable(env)
  {
    hide GasForContract, ChargeFor, Arises, CostOf;
    forall o: Occasion, limit: uint64, consumed: nat
      | Arises(env, o) && CostOf(env, o) <= consumed <= limit && o.inp.gas == GasForContract(limit, consumed)
      ensures !Overruns(limit - consumed, env.run(o.inp))
    {
      var run := env.run(o.inp);
      assert run.storageGas == 0;
      GrantNeverExceedsMeter(limit, consumed);
      if run.result.Some? {
        ChargeMonotone(run.result.value.gasUsed, o.inp.gas);
      }
    }
  }

  // ------------------------------------------------------------------ what the operations spend

  /** Exactly `cost` was spent, and the meter could pay it. */
  ghost predicate Spent(w: World, v: World, cost: nat) {
    && w.meter.Metered? && v.meter == Metered(w.meter.limit, w.meter.consumed + cost)
    && v.meter.consumed <= v.meter.limit
  }

  lemma ReadSpends(env: Env, w: World, s: Slot)
    requires w.meter.Metered?
    ensures var r := Read(env, w, s);
            var cost := env.readCost(Encode(s), Lookup(w.reg, s));
            && (r.out.Ok? ==> Spent(w, r.w, cost) && r.out.value == Lookup(w.reg, s))
            && Idle(w, r.w) && Expected(r.out, true)
            && (w.meter.consumed + cost <= w.meter.limit ==> r.out.Ok?)
  {
    hide Lookup, Encode;
  }

  lemma TransferSpends(env: Env, w: World, from: bytes, to: bytes, coins: seq<Coin>)
    requires w.meter.Metered?
    ensures var m := BankSend(from, to, coins);
            var r, sent := Transfer(env, w, m), Send(env.denomOk, w.bank, from, to, coins);
            && (r.out.Ok? ==> Spent(w, r.w, env.bankCost(m)) && sent == Ok(r.w.bank) && to in r.w.bank)
            && r.w == w.(meter := r.w.meter, bank := r.w.bank) && Expected(r.out, true)
            && (w.meter.consumed + env.bankCost(m) <= w.meter.limit && sent.Ok? ==> r.out.Ok?)
  {
    hide Send, MultiSend;
    SettleNeverPanics(env, w.bank, BankSend(from, to, coins));
    if Send(env.denomOk, w.bank, from, to, coins).Ok? {
      SendIsSound(env.denomOk, w.bank, from, to, coins);
    }
  }

  lemma GetAccountSpends(env: Env, w: World, a: bytes)
    requires w.meter.Metered?
    ensures var r := GetAccount(env, w, a);
            && (r.out.Ok? ==> Spent(w, r.w, env.accountCost(a)) && r.out.value == if a in w.bank then Some(w.bank[a]) else None)
            && Idle(w, r.w) && Expected(r.out, true)
            && (w.meter.consumed + env.accountCost(a) <= w.meter.limit ==> r.out.Ok?)
  {
  }

  lemma ContractInstanceSpends(env: Env, w: World, addr: bytes)
    requires w.meter.Metered?
    ensures var r := ContractInstance(env, w, addr);
            && (r.out.Ok? ==>
                  && |addr| == 20 && addr in w.reg.contracts
                  && var info := w.reg.contracts[addr];
                     && info.codeID in w.reg.codes && r.out.value == w.reg.codes[info.codeID]
                     && Spent(w, r.w, env.readCost(Encode(Contract(addr)), Some(ContractValue(info)))
                                      + env.readCost(Encode(Code(info.codeID)), Some(CodeValue(r.out.value)))))
            && Idle(w, r.w) && Expected(r.out, true)
  {
    hide Read, Encode;
    ReadSpends(env, w, Contract(addr));
    var r := Read(env, w, Contract(addr));
    if r.out.Ok? && r.out.value.Some? {
      ReadSpends(env, r.w, Code(r.out.value.value.contract.codeID));
    }
  }

  lemma GenerateSpends(env: Env, w: World, codeID: uint64)
    requires w.meter.Metered?
    ensures var r := GenerateContractAddress(env, w, codeID);
            && (r.out.Ok? ==> Spent(w, r.w, CounterPrice(env, w.reg.instanceSeq)) && r.out.value == NewAddress(env, w, codeID))
            && r.w.bank == w.bank && r.w.reg == w.reg.(instanceSeq := r.w.reg.instanceSeq) && Expected(r.out, true)
            && (w.meter.consumed + CounterPrice(env, w.reg.instanceSeq) <= w.meter.limit ==> r.out.Ok?)
  {
    hide AutoIncrementID, AddrFromUint64, ContractID, CounterPrice;
    IncrementSpends(env, w);
    AutoIncrementEffect(env, w, LastInstance);
  }

  /** What setting up a contract costs before its code runs. */
  function SetUpCost(env: Env, addr: address, codeID: uint64, code: CodeInfo, creator: bytes, deposit: seq<Coin>): nat {
    env.bankCost(BankSend(creator, addr, deposit)) + env.accountCost(addr)
    + env.readCost(Encode(Code(codeID)), Some(CodeValue(code)))
  }

  /** Setting up a contract gets as far as running its code. */
  predicate SetUpRuns(env: Env, w: World, addr: address, codeID: uint64, creator: bytes, deposit: seq<Coin>)
    requires w.meter.Metered?
  {
    && Send(env.denomOk, w.bank, creator, addr, deposit).Ok? && codeID in w.reg.codes
    && w.meter.consumed + SetUpCost(env, addr, codeID, w.reg.codes[codeID], creator, deposit) <= w.meter.limit
  }

  lemma SetUpSpends(env: Env, w: World, addr: address, codeID: uint64, creator: bytes, initMsg: bytes, deposit: seq<Coin>) returns (c: World)
    requires w.meter.Metered?
    ensures var r := SetUp(env, w, addr, codeID, creator, initMsg, deposit);
            if SetUpRuns(env, w, addr, codeID, creator, deposit)
            then && Spent(w, c, SetUpCost(env, addr, codeID, w.reg.codes[codeID], creator, deposit)) && c.reg == w.reg
                 && r == Invoke(env, c, OnInit, w.reg.codes[codeID].hash, addr, creator, deposit,
                                Held(Send(env.denomOk, w.bank, creator, addr, deposit).value, addr), initMsg)
            else Expected(r.out, true)
  {
    hide Transfer, GetAccount, Read, Invoke, Encode, Send, Later;
    c := w;
    var p := Transfer(env, w, BankSend(creator, addr, deposit));
    TransferSpends(env, w, creator, addr, deposit);
    if p.out.Ok? {
      var g := GetAccount(env, p.w, addr);
      GetAccountSpends(env, p.w, addr);
      if g.out.Ok? {
        c := Read(env, g.w, Code(codeID)).w;
        ReadSpends(env, g.w, Code(codeID));
      }
    }
  }

  // ------------------------------------------------------------------ no run, no charge

  /** The only ways to panic: out of gas, or a message of no known kind. If runs are affordable
      the gas is never spent by a wasm charge. */
  predicate Expected<T>(out: Out<T>, affordable: bool) {
    out.Panicked? ==>
      out.panic == OutOfGas(StoreAccess) || out.panic == UnknownCosmosMsg || (!affordable && out.panic == BROKE)
  }

  lemma InvokeIsExpected(env: Env, affordable: bool, w: World, o: Occasion)
    requires w.meter.Metered? && (affordable ==> Affordable(env))
    requires Arises(env, o) && CostOf(env, o) <= w.meter.consumed <= w.meter.limit
    requires o.inp.store == SubStore(w.reg, o.inp.contract) && o.inp.gas == GasForContract(w.meter.limit, w.meter.consumed)
    ensures Expected(Invoke(env, w, o.inp.entry, o.code.hash, o.inp.contract, o.inp.signer, o.coins, o.inp.balance, o.inp.msg).out, affordable)
  {
    InvokeOn(env, w, o);
    hide ApplyUpdates, GasForContract, ToWasm, ChargeFor, Affordable, Overruns, SubStore, CostOf, Arises;
    var inp := o.inp;
    InvokeBrokeIff(env, w, inp.entry, o.code.hash, inp.contract, inp.signer, o.coins, inp.balance, inp.msg);
    if affordable {
      NeverOverruns(env, o, w.meter.limit, w.meter.consumed);
    }
  }

  lemma InvokeOn(env: Env, w: World, o: Occasion)
    requires w.meter.Metered? && Arises(env, o)
    requires o.inp.store == SubStore(w.reg, o.inp.contract) && o.inp.gas == GasForContract(w.meter.limit, w.meter.consumed)
    ensures o.inp == RunInput(o.inp.entry, o.code.hash, o.inp.signer, ToWasm(o.coins), o.inp.contract, o.inp.balance, o.inp.msg,
                              SubStore(w.reg, o.inp.contract), GasForContract(w.meter.limit, w.meter.consumed))
  {
  }

  lemma NeverOverruns(env: Env, o: Occasion, limit: uint64, consumed: nat)
    requires Affordable(env) && Arises(env, o) && CostOf(env, o) <= consumed <= limit && o.inp.gas == GasForContract(limit, consumed)
    ensures !Overruns(limit - consumed, env.run(o.inp))
  {
    hide GasForContract, Overruns, CostOf, Arises;
  }

  lemma TransferIsExpected(env: Env, w: World, m: SdkMsg)
    requires w.meter.Metered? && (m.BankSend? || m.BankMultiSend?)
    ensures Expected(Transfer(env, w, m).out, true)
  {
    hide Send, MultiSend;
    SettleNeverPanics(env, w.bank, m);
  }

  lemma {:induction false} SettleNeverPanics(env: Env, l: Ledger, m: SdkMsg)
    requires m.BankSend? || m.BankMultiSend?
    ensures !Settle(env, l, m).Panicked?
  {
    if m.BankMultiSend? {
      TakeAllNeverPanics(env, l, m.ins);
      if TakeAll(env.denomOk, l, m.ins).Ok? {
        GiveAllNeverPanics(env, TakeAll(env.denomOk, l, m.ins).value, m.outs);
      }
    }
  }

  lemma {:induction false} TakeAllNeverPanics(env: Env, l: Ledger, ins: seq<Party>)
    ensures !TakeAll(env.denomOk, l, ins).Panicked?
    decreases |ins|
  {
    if ins != [] && SubtractCoins(env.denomOk, l, ins[0].addr, ins[0].coins).Ok? {
      TakeAllNeverPanics(env, SubtractCoins(env.denomOk, l, ins[0].addr, ins[0].coins).value, ins[1..]);
    }
  }

  lemma {:induction false} GiveAllNeverPanics(env: Env, l: Ledger, outs: seq<Party>)
    ensures !GiveAll(env.denomOk, l, outs).Panicked?
    decreases |outs|
  {
    if outs != [] && AddCoins(env.denomOk, l, outs[0].addr, outs[0].coins).Ok? {
      GiveAllNeverPanics(env, AddCoins(env.denomOk, l, outs[0].addr, outs[0].coins).value, outs[1..]);
    }
  }

  lemma CallIsAffordable(env: Env, affordable: bool, w: World, addr: bytes, caller: bytes, msg: bytes, coins: seq<Coin>)
    requires w.meter.Metered? && (affordable ==> Affordable(env))
    ensures Expected(ExecuteHead(env, w, addr, caller, msg, coins).out, affordable)
  {
    hide ContractInstance, Transfer, GetAccount, Invoke, Affordable, Encode, Send, GasForContract, SubStore, ToWasm, Later;
    var w0 := Log(w, Called(addr));
    var i := ContractInstance(env, w0, addr);
    ContractInstanceSpends(env, w0, addr);
    if i.out.Ok? {
      var p := Transfer(env, i.w, BankSend(caller, addr, coins));
      TransferSpends(env, i.w, caller, addr, coins);
      if p.out.Ok? {
        var g := GetAccount(env, p.w, addr);
        GetAccountSpends(env, p.w, addr);
        if g.out.Ok? {
          var inp := RunInput(OnHandle, i.out.value.hash, caller, ToWasm(coins), addr, g.out.value.value, msg,
                              SubStore(g.w.reg, addr), GasForContract(g.w.meter.limit, g.w.meter.consumed));
          var o := Occasion(inp, coins, w.bank, w.reg.contracts[addr], i.out.value, None);
          InvokeIsExpected(env, affordable, g.w, o);
        }
      }
    }
  }

  lemma LaunchIsAffordable(env: Env, affordable: bool, w: World, codeID: uint64, creator: bytes, initMsg: bytes, deposit: seq<Coin>)
    requires w.meter.Metered? && (affordable ==> Affordable(env))
    ensures Expected(InstantiateHead(env, w, codeID, creator, initMsg, deposit).out, affordable)
  {
    hide SetUp, Affordable, GetAccount, GenerateContractAddress, NewAddress, CounterPrice;
    var gen := GenerateContractAddress(env, w, codeID);
    GenerateSpends(env, w, codeID);
    if gen.out.Ok? {
      var got := GetAccount(env, gen.w, gen.out.value);
      GetAccountSpends(env, gen.w, gen.out.value);
      if got.out.Ok? && got.out.value.None? {
        SetUpIsAffordable(env, affordable, w, got.w, codeID, creator, initMsg, deposit);
      }
    }
  }

  lemma SetUpIsAffordable(env: Env, affordable: bool, w: World, v: World, codeID: uint64, creator: bytes, initMsg: bytes, deposit: seq<Coin>)
    requires (affordable ==> Affordable(env)) && NewAddress(env, w, codeID) !in v.bank
    requires Spent(w, v, CounterPrice(env, w.reg.instanceSeq) + env.accountCost(NewAddress(env, w, codeID)))
    ensures Expected(SetUp(env, v, NewAddress(env, w, codeID), codeID, creator, initMsg, deposit).out, affordable)
  {
    var addr := NewAddress(env, w, codeID);
    assert addr == AddrFromUint64(env, ContractID(codeID, Next(w.reg.instanceSeq)));
    hide SetUp, Invoke, Affordable, Encode, Send, GasForContract, SubStore, ToWasm, NewAddress, CounterPrice, AddrFromUint64, ContractID;
    var c := SetUpSpends(env, v, addr, codeID, creator, initMsg, deposit);
    if SetUpRuns(env, v, addr, codeID, creator, deposit) {
      var code := v.reg.codes[codeID];
      var balance := Held(Send(env.denomOk, v.bank, creator, addr, deposit).value, addr);
      var inp := RunInput(OnInit, code.hash, creator, ToWasm(deposit), addr, balance, initMsg,
                          SubStore(c.reg, addr), GasForContract(c.meter.limit, c.meter.consumed));
      var o := Occasion(inp, deposit, v.bank, ContractInfo(codeID, creator, initMsg), code, w.reg.instanceSeq);
      InvokeIsExpected(env, affordable, c, o);
    }
  }

  lemma StepIsAffordable(env: Env, affordable: bool, w: World, t: Task)
    requires w.meter.Metered? && (affordable ==> Affordable(env))
    ensures Expected(Step(env, w, t).out, affordable)
  {
    hide ExecuteHead, InstantiateHead, StepSdk, StepSend, Affordable, Encode, Put, Weight;
    match t {
      case Call(addr, caller, msg, coins) =>
        CallIsAffordable(env, affordable, w, addr, caller, msg, coins);
      case Launch(codeID, creator, initMsg, deposit) =>
        LaunchIsAffordable(env, affordable, w, codeID, creator, initMsg, deposit);
      case Register(_, _) =>
      case Dispatch(self, m) =>
        if m.send.Some? {
          SendIsAffordable(env, w, self, m.send.value.from, m.send.value.to, m.send.value.amount);
        } else if m.contract.Some? {
          SendIsAffordable(env, w, self, Parsed(self), m.contract.value.contractAddr, m.contract.value.send);
        } else if m.opaque_.Some? && m.opaque_.value.Some? {
          SdkIsAffordable(env, w, self, m.opaque_.value.value);
        }
    }
  }

  lemma SdkIsAffordable(env: Env, w: World, self: address, m: SdkMsg)
    requires w.meter.Metered?
    ensures Expected(StepSdk(env, w, self, m).out, true)
  {
    hide Transfer, Encode, Put, Compiles, Uncompress;
    if m.BankSend? || m.BankMultiSend? {
      TransferIsExpected(env, w, m);
    }
  }

  lemma SendIsAffordable(env: Env, w: World, self: address, origin: Text, target: Text, tokens: seq<WasmCoin>)
    requires w.meter.Metered?
    ensures Expected(StepSend(env, w, self, origin, target, tokens).out, true)
  {
    hide StepSdk, FromWasm;
    var converted := ConvertSendMsg(env, origin, target, tokens);
    if converted.Ok? {
      SdkIsAffordable(env, w, self, converted.value);
    }
  }

  lemma {:induction false} RunIsAffordable(env: Env, affordable: bool, w: World, ts: seq<Task>)
    requires w.meter.Metered? && (affordable ==> Affordable(env))
    ensures Expected(Run(env, w, ts).out, affordable)
    decreases GasLeft(w), Weight(ts)
  {
    hide Step, Affordable;
    if ts != [] {
      var s := Step(env, w, ts[0]);
      StepIsAffordable(env, affordable, w, ts[0]);
      if s.out.Ok? {
        WeightOfConcat(s.out.value, ts[1..]);
        RunIsAffordable(env, affordable, s.w, s.out.value + ts[1..]);
      }
    }
  }

  /** Gas safety: if runs are affordable, charging for wasm never exhausts the meter anywhere in
      the call tree. */
  lemma ExecuteNeverBroke(env: Env, w: World, addr: bytes, caller: bytes, msg: bytes, coins: seq<Coin>)
    requires w.meter.Metered? && Affordable(env)
    ensures Execute(env, w, addr, caller, msg, coins).out != Panicked(BROKE)
  {
    hide Execute, Run, Affordable;
    ExecuteIsRun(env, w, addr, caller, msg, coins);
    RunIsAffordable(env, true, w, [Call(addr, caller, msg, coins)]);
  }

  lemma InstantiateNeverBroke(env: Env, w: World, codeID: uint64, creator: bytes, initMsg: bytes, deposit: seq<Coin>)
    requires w.meter.Metered? && Affordable(env)
    ensures Instantiate(env, w, codeID, creator, initMsg, deposit).out != Panicked(BROKE)
  {
    hide Instantiate, Run, Affordable;
    InstantiateIsRun(env, w, codeID, creator, initMsg, deposit);
    RunIsAffordable(env, true, w, [Launch(codeID, creator, initMsg, deposit)]);
  }

  /** In particular if contracts use no more than they were granted and touch no metered storage. */
  lemma HonestContractsNeverBroke(env: Env, w: World, addr: bytes, caller: bytes, msg: bytes, coins: seq<Coin>)
    requires w.meter.Metered? && Honest(env) && FreeStorage(env)
    ensures Execute(env, w, addr, caller, msg, coins).out != Panicked(BROKE)
  {
    hide Execute, Honest, FreeStorage, Affordable;
    HonestAndFreeIsAffordable(env);
    ExecuteNeverBroke(env, w, addr, caller, msg, coins);
  }

  /** No call panics for any other reason: in particular the account of a contract that is being
      executed or created is never missing when its parameters are built. */
  lemma ExecutePanicsOnlyAsExpected(env: Env, w: World, addr: bytes, caller: bytes, msg: bytes, coins: seq<Coin>)
    requires w.meter.Metered?
    ensures Expected(Execute(env, w, addr, caller, msg, coins).out, false)
  {
    hide Execute, Run;
    ExecuteIsRun(env, w, addr, caller, msg, coins);
    RunIsAffordable(env, false, w, [Call(addr, caller, msg, coins)]);
  }

  // ------------------------------------------------------------------ and only then

  /** A world in which an occasion arises when `consumed` of `limit` gas is spent. */
  function Stage(env: Env, o: Occasion, limit: uint64, consumed: nat): World
    requires CostOf(env, o) <= consumed
  {
    var contracts: map<address, ContractInfo> := if o.inp.entry.OnInit? then map[] else map[o.inp.contract := o.record];
    World(Registry(None, o.counter, map[o.record.codeID := o.code], contracts, map[o.inp.contract := o.inp.store]),
          map[], o.before, Metered(limit, consumed - CostOf(env, o)), [])
  }

  /** The world at the moment the code is run. */
  ghost predicate OnStage(env: Env, o: Occasion, limit: uint64, consumed: nat, v: World) {
    v.meter == Metered(limit, consumed) && SubStore(v.reg, o.inp.contract) == o.inp.store
  }

  function Performance(env: Env, o: Occasion, v: World): Res<RunResult>
    requires v.meter.Metered?
  {
    Invoke(env, v, o.inp.entry, o.code.hash, o.inp.contract, o.inp.signer, o.coins, o.inp.balance, o.inp.msg)
  }

  lemma CallStageReaches(env: Env, o: Occasion, limit: uint64, consumed: nat) returns (v: World)
    requires Arises(env, o) && o.inp.entry.OnHandle? && CostOf(env, o) <= consumed <= limit
    ensures OnStage(env, o, limit, consumed, v)
    ensures ExecuteHead(env, Stage(env, o, limit, consumed), o.inp.contract, o.inp.signer, o.inp.msg, o.coins) == Performance(env, o, v)
  {
    hide ContractInstance, Transfer, GetAccount, Invoke, Encode, Send, Later, ToWasm;
    var addr := o.inp.contract;
    var w := Log(Stage(env, o, limit, consumed), Called(addr));
    StageHasInstance(env, o, w);
    ContractInstanceSpends(env, w, addr);
    var i := ContractInstance(env, w, addr);
    TransferSpends(env, i.w, o.inp.signer, addr, o.coins);
    var p := Transfer(env, i.w, BankSend(o.inp.signer, addr, o.coins));
    GetAccountSpends(env, p.w, addr);
    v := GetAccount(env, p.w, addr).w;
  }

  lemma StageHasInstance(env: Env, o: Occasion, w: World)
    requires w.meter.Metered? && w.reg.contracts == map[o.inp.contract := o.record] && w.reg.codes == map[o.record.codeID := o.code]
    requires w.meter.consumed + env.readCost(Encode(Contract(o.inp.contract)), Some(ContractValue(o.record)))
             + env.readCost(Encode(Code(o.record.codeID)), Some(CodeValue(o.code))) <= w.meter.limit
    ensures ContractInstance(env, w, o.inp.contract).out.Ok?
  {
    hide Read, Encode;
    ReadSpends(env, w, Contract(o.inp.contract));
    ReadSpends(env, Read(env, w, Contract(o.inp.contract)).w, Code(o.record.codeID));
  }

  /** Where an instantiation gets to when it finds its new address free. */
  lemma HeadIsSetUp(env: Env, w: World, codeID: uint64, creator: bytes, initMsg: bytes, deposit: seq<Coin>) returns (u: World)
    requires w.meter.Metered? && NewAddress(env, w, codeID) !in w.bank
    requires w.meter.consumed + CounterPrice(env, w.reg.instanceSeq) + env.accountCost(NewAddress(env, w, codeID)) <= w.meter.limit
    ensures Spent(w, u, CounterPrice(env, w.reg.instanceSeq) + env.accountCost(NewAddress(env, w, codeID)))
    ensures u.bank == w.bank && u.reg == w.reg.(instanceSeq := u.reg.instanceSeq)
    ensures var head := InstantiateHead(env, w, codeID, creator, initMsg, deposit);
            var r := SetUp(env, u, NewAddress(env, w, codeID), codeID, creator, initMsg, deposit);
            head.w == r.w && Ending(head.out) == Ending(r.out)
  {
    hide GenerateContractAddress, GetAccount, SetUp, Later, NewAddress, CounterPrice;
    GenerateSpends(env, w, codeID);
    var gen := GenerateContractAddress(env, w, codeID);
    GetAccountSpends(env, gen.w, NewAddress(env, w, codeID));
    u := GetAccount(env, gen.w, NewAddress(env, w, codeID)).w;
  }

  lemma InitCost(env: Env, o: Occasion)
    requires o.inp.entry.OnInit?
    ensures CostOf(env, o) == CounterPrice(env, o.counter) + env.accountCost(o.inp.contract)
                              + SetUpCost(env, o.inp.contract, o.record.codeID, o.code, o.inp.signer, o.coins)
  {
    hide CounterPrice;
  }

  /** The second half of an instantiation, on stage. */
  lemma SetUpReaches(env: Env, o: Occasion, limit: uint64, consumed: nat, u: World) returns (v: World)
    requires Arises(env, o) && o.inp.entry.OnInit? && consumed <= limit
    requires u.meter.Metered? && u.meter.limit == limit && u.bank == o.before && u.reg.codes == map[o.record.codeID := o.code]
    requires SubStore(u.reg, o.inp.contract) == o.inp.store
    requires u.meter.consumed + SetUpCost(env, o.inp.contract, o.record.codeID, o.code, o.inp.signer, o.coins) == consumed
    ensures OnStage(env, o, limit, consumed, v)
    ensures SetUp(env, u, o.inp.contract, o.record.codeID, o.inp.signer, o.inp.msg, o.coins) == Performance(env, o, v)
  {
    hide SetUp, Invoke, Send, ToWasm, AddrFromUint64, ContractID, SetUpCost, SubStore;
    v := SetUpSpends(env, u, o.inp.contract, o.record.codeID, o.inp.signer, o.inp.msg, o.coins);
  }

  lemma LaunchStageReaches(env: Env, o: Occasion, limit: uint64, consumed: nat) returns (v: World)
    requires Arises(env, o) && o.inp.entry.OnInit? && CostOf(env, o) <= consumed <= limit
    ensures OnStage(env, o, limit, consumed, v)
    ensures var head := InstantiateHead(env, Stage(env, o, limit, consumed), o.record.codeID, o.inp.signer, o.inp.msg, o.coins);
            var r := Performance(env, o, v);
            head.w == r.w && Ending(head.out) == Ending(r.out)
  {
    var w, addr, codeID := Stage(env, o, limit, consumed), o.inp.contract, o.record.codeID;
    assert NewAddress(env, w, codeID) == addr;
    assert SubStore(w.reg, addr) == o.inp.store;
    hide InstantiateHead, SetUp, NewAddress, CounterPrice, CostOf, SetUpCost, Performance, OnStage, SubStore, Send;
    InitCost(env, o);
    var u := HeadIsSetUp(env, w, codeID, o.inp.signer, o.inp.msg, o.coins);
    SameData(w.reg, u.reg);
    v := SetUpReaches(env, o, limit, consumed, u);
  }

  lemma PanicsLikeItsHead(env: Env, w: World, p: Panic)
    requires w.meter.Metered?
    ensures forall addr, caller, msg, coins :: ExecuteHead(env, w, addr, caller, msg, coins).out == Panicked(p) ==>
              Execute(env, w, addr, caller, msg, coins).out == Panicked(p)
    ensures forall codeID, creator, initMsg, deposit :: InstantiateHead(env, w, codeID, creator, initMsg, deposit).out == Panicked(p) ==>
              Instantiate(env, w, codeID, creator, initMsg, deposit).out == Panicked(p)
  {
    hide ExecuteHead, InstantiateHead;
  }

  lemma PerformanceBreaks(env: Env, o: Occasion, limit: uint64, consumed: nat, v: World)
    requires Arises(env, o) && consumed <= limit && o.inp.gas == GasForContract(limit, consumed)
    requires Overruns(limit - consumed, env.run(o.inp)) && OnStage(env, o, limit, consumed, v)
    ensures Performance(env, o, v).out == Panicked(BROKE)
  {
    InvokeOn(env, v, o);
    hide Invoke, GasForContract, Overruns, SubStore, Arises, ToWasm;
    InvokeBrokeIff(env, v, o.inp.entry, o.code.hash, o.inp.contract, o.inp.signer, o.coins, o.inp.balance, o.inp.msg);
  }

  /** The condition is needed: any run that, on an occasion that can arise, overruns what is left of
      a meter stops an Execute, or an Instantiate, by its wasm charge. */
  lemma OverrunIsReachable(env: Env, o: Occasion, limit: uint64, consumed: nat)
    requires Arises(env, o) && CostOf(env, o) <= consumed <= limit && o.inp.gas == GasForContract(limit, consumed)
    requires Overruns(limit - consumed, env.run(o.inp))
    ensures var w := Stage(env, o, limit, consumed);
            w.meter.Metered? &&
            if o.inp.entry.OnHandle?
            then Execute(env, w, o.inp.contract, o.inp.signer, o.inp.msg, o.coins).out == Panicked(BROKE)
            else Instantiate(env, w, o.record.codeID, o.inp.signer, o.inp.msg, o.coins).out == Panicked(BROKE)
  {
    assert Stage(env, o, limit, consumed).meter.Metered?;
    hide Performance, Execute, Instantiate, ExecuteHead, InstantiateHead, GasForContract, Overruns, CostOf, Arises, Stage, OnStage;
    PanicsLikeItsHead(env, Stage(env, o, limit, consumed), BROKE);
    if o.inp.entry.OnHandle? {
      var v := CallStageReaches(env, o, limit, consumed);
      PerformanceBreaks(env, o, limit, consumed, v);
    } else {
      var v := LaunchStageReaches(env, o, limit, consumed);
      PerformanceBreaks(env, o, limit, consumed, v);
    }
  }

  /** Exactly then: no call of any kind in any world is ever stopped by a wasm charge if and only if
      runs are affordable. */
  lemma NeverBrokeIff(env: Env)
    ensures Affordable(env)
            <==> && (forall w: World, addr, caller, msg, coins :: w.meter.Metered? ==>
                       Execute(env, w, addr, caller, msg, coins).out != Panicked(BROKE))
                 && (forall w: World, codeID, creator, initMsg, deposit :: w.meter.Metered? ==>
                       Instantiate(env, w, codeID, creator, initMsg, deposit).out != Panicked(BROKE))
  {
    hide Execute, Instantiate, Arises, CostOf, GasForContract, Overruns, Stage;
    if Affordable(env) {
      forall w: World, addr, caller, msg, coins | w.meter.Metered?
        ensures Execute(env, w, addr, caller, msg, coins).out != Panicked(BROKE)
      {
        ExecuteNeverBroke(env, w, addr, caller, msg, coins);
      }
      forall w: World, codeID, creator, initMsg, deposit | w.meter.Metered?
        ensures Instantiate(env, w, codeID, creator, initMsg, deposit).out != Panicked(BROKE)
      {
        InstantiateNeverBroke(env, w, codeID, creator, initMsg, deposit);
      }
    } else {
      var o: Occasion, limit: uint64, consumed: nat :|
        && Arises(env, o) && CostOf(env, o) <= consumed <= limit && o.inp.gas == GasForContract(limit, consumed)
        && Overruns(limit - consumed, env.run(o.inp));
      OverrunIsReachable(env, o, limit, consumed);
    }
  }
}
