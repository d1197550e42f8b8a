/** A reference semantics for re-entrant execution that has no recursion over calls: a stack of
    pending tasks, one local step at a time, stopping at the first failure. The keeper's
    recursive operations refine it, so they run dispatched messages depth first, left to right,
    and nothing runs after a failure. */
module Machine {
  import opened Bytes
  import opened Outcome
  import opened Layout
  import opened Coins
  import opened Types
  import opened Engine

  datatype Task =
    | Call(addr: bytes, caller: bytes, msg: bytes, coins: seq<Coin>)
    | Launch(codeID: uint64, creator: bytes, initMsg: bytes, deposit: seq<Coin>)
    | Dispatch(self: address, cosmosMsg: CosmosMsg)
    | Register(instance: address, info: ContractInfo)

  function Dispatches(self: address, msgs: seq<CosmosMsg>): (r: seq<Task>)
    ensures |r| == |msgs|
    ensures forall t :: t in r ==> t.Dispatch? && t.self == self
  {
    seq(|msgs|, i requires 0 <= i < |msgs| => Dispatch(self, msgs[i]))
  }

  /** Performs the first task; what it leaves to do goes on top of the stack. */
  function Step(env: Env, w: World, t: Task): (r: Res<seq<Task>>)
    requires w.meter.Metered?
    ensures Later(w, r.w) && GasLeft(r.w) <= GasLeft(w)
    ensures r.out.Ok? ==> GasLeft(r.w) < GasLeft(w) || Weight(r.out.value) < TaskWeight(t)
  {
    match t
    case Call(addr, caller, msg, coins) =>
      var (w1, res) :- ExecuteHead(env, w, addr, caller, msg, coins);
      Res(w1, Ok(Dispatches(addr, res.messages)))
    case Launch(codeID, creator, initMsg, deposit) =>
      var (w1, head) :- InstantiateHead(env, w, codeID, creator, initMsg, deposit);
      var (addr, res) := head;
      Res(w1, Ok(Dispatches(addr, res.messages) + [Register(addr, ContractInfo(codeID, creator, initMsg))]))
    case Register(instance, info) =>
      var (w1, _) :- Write(env, w, Contract(instance), ContractValue(info));
      Res(w1, Ok([]))
    case Dispatch(self, m) =>
      if m.send.Some? then
        StepSend(env, w, self, m.send.value.from, m.send.value.to, m.send.value.amount)
      else if m.contract.Some? then
        var c := m.contract.value;
        if c.contractAddr.Malformed? then Res(w, Err(InvalidAddress))
        else
          var (w1, _) :- StepSend(env, w, self, Parsed(self), c.contractAddr, c.send);
          Res(w1, Ok([Call(c.contractAddr.addr, self, c.msg, [])]))
      else if m.opaque_.Some? then
        if m.opaque_.value.None? then Res(w, Err(UndecodableMsg))
        else StepSdk(env, w, self, m.opaque_.value.value)
      else Res(w, Panicked(UnknownCosmosMsg))
  }

  /** Moves tokens for a contract that signs for itself only. */
  function StepSend(env: Env, w: World, self: address, origin: Text, target: Text, tokens: seq<WasmCoin>): (r: Res<seq<Task>>)
    requires w.meter.Metered?
    ensures Later(w, r.w) && GasLeft(r.w) <= GasLeft(w)
    ensures r.out.Ok? ==> r.out.value == []
  {
    if tokens == [] then Res(w, Ok([]))
    else
      match ConvertSendMsg(env, origin, target, tokens)
      case Ok(m) => StepSdk(env, w, self, m)
      case Err(e) => Res(w, Err(e))
      case Panicked(p) => Res(w, Panicked(p))
  }

  function StepSdk(env: Env, w: World, self: address, m: SdkMsg): (r: Res<seq<Task>>)
    requires w.meter.Metered?
    ensures Later(w, r.w) && GasLeft(r.w) <= GasLeft(w)
    ensures r.out.Ok? ==> Weight(r.out.value) <= 1 && (m.BankSend? ==> r.out.value == [])
  {
    if !Authorised(self, m) then Res(w, Err(Unauthorized))
    else
      match m
      case StoreCode(sender, code, source, builder) =>
        if !env.storeCodeOk(m) then Res(w, Err(InvalidMsg))
        else
          var (w1, _) :- Create(env, w, sender, code, source, builder);
          Res(w1, Ok([]))
      case InstantiateContract(sender, codeID, initMsg, funds) =>
        Res(w, Ok([Launch(codeID, sender, initMsg, funds)]))
      case ExecuteContract(sender, contract, msg, funds) =>
        Res(w, Ok([Call(contract, sender, msg, funds)]))
      case Other(_) => Res(w, Err(UnknownRequest))
      case _ =>
        if env.bankRefuses(m) then Res(w, Err(BankRefused))
        else
          var (w1, _) :- Transfer(env, w, m);
          Res(w1, Ok([]))
  }

  function TaskWeight(t: Task): nat {
    if t.Dispatch? then 2 else 1
  }

  function Weight(ts: seq<Task>): nat {
    if ts == [] then 0 else TaskWeight(ts[0]) + Weight(ts[1..])
  }

  lemma {:induction false} WeightOfConcat(a: seq<Task>, b: seq<Task>)
    ensures Weight(a + b) == Weight(a) + Weight(b)
  {
    if a == [] {
      assert a + b == b;
    } else {
      assert (a + b)[1..] == a[1..] + b;
      WeightOfConcat(a[1..], b);
    }
  }

  /** Runs a stack of tasks to the end or to the first failure. It always ends: a step either
      uses up gas or leaves less to do. */
  function Run(env: Env, w: World, ts: seq<Task>): (r: Res<()>)
    requires w.meter.Metered?
    ensures Later(w, r.w) && GasLeft(r.w) <= GasLeft(w)
    decreases GasLeft(w), Weight(ts)
  {
    if ts == [] then Res(w, Ok(()))
    else
      var (w1, todo) :- Step(env, w, ts[0]);
      WeightOfConcat(todo, ts[1..]);
      Run(env, w1, todo + ts[1..])
  }

  // ------------------------------------------------------------------ refinement

  /** Forgets what a call returned. */
  function Ending<T>(out: Out<T>): Out<()> {
    match out
    case Ok(_) => Ok(())
    case Err(e) => Err(e)
    case Panicked(p) => Panicked(p)
  }

  /** What happens to the rest of the stack once a call has ended. */
  function Continue<T>(env: Env, r: Res<T>, rest: seq<Task>): Res<()>
    requires r.w.meter.Metered?
  {
    if r.out.Ok? then Run(env, r.w, rest) else Res(r.w, Ending(r.out))
  }

  lemma RunFirst(env: Env, w: World, t: Task, rest: seq<Task>)
    requires w.meter.Metered?
    ensures var r := Step(env, w, t);
            Run(env, w, [t] + rest) == if r.out.Ok? then Run(env, r.w, r.out.value + rest) else Res(r.w, Ending(r.out))
  {
    assert ([t] + rest)[1..] == rest;
  }

  lemma {:induction false} CallRefines(env: Env, w: World, addr: bytes, caller: bytes, msg: bytes, coins: seq<Coin>, rest: seq<Task>)
    requires w.meter.Metered?
    ensures Run(env, w, [Call(addr, caller, msg, coins)] + rest)
            == Continue(env, Execute(env, w, addr, caller, msg, coins), rest)
    decreases GasLeft(w), 0, 0
  {
    hide ExecuteHead, Weight;
    RunFirst(env, w, Call(addr, caller, msg, coins), rest);
    var head := ExecuteHead(env, w, addr, caller, msg, coins);
    if head.out.Ok? {
      DispatchesRefine(env, head.w, addr, head.out.value.messages, rest);
    }
  }

  lemma {:induction false} LaunchRefines(env: Env, w: World, codeID: uint64, creator: bytes, initMsg: bytes, deposit: seq<Coin>, rest: seq<Task>)
    requires w.meter.Metered?
    ensures Run(env, w, [Launch(codeID, creator, initMsg, deposit)] + rest)
            == Continue(env, Instantiate(env, w, codeID, creator, initMsg, deposit), rest)
    decreases GasLeft(w), 0, 0
  {
    hide InstantiateHead, Weight;
    RunFirst(env, w, Launch(codeID, creator, initMsg, deposit), rest);
    var head := InstantiateHead(env, w, codeID, creator, initMsg, deposit);
    if head.out.Ok? {
      var (addr, res) := head.out.value;
      RegisterRefines(env, head.w, addr, ContractInfo(codeID, creator, initMsg), res.messages, rest);
    }
  }

  lemma {:induction false} RegisterRefines(env: Env, w: World, self: address, info: ContractInfo, msgs: seq<CosmosMsg>, rest: seq<Task>)
    requires w.meter.Metered?
    ensures var sent := DispatchMessages(env, w, self, msgs);
            Run(env, w, Dispatches(self, msgs) + [Register(self, info)] + rest)
            == if sent.out.Ok? then Continue(env, Write(env, sent.w, Contract(self), ContractValue(info)), rest)
               else Res(sent.w, Ending(sent.out))
    decreases GasLeft(w), 6, 0
  {
    hide Put, Encode;
    var register := [Register(self, info)];
    DispatchesRefine(env, w, self, msgs, register + rest);
    assert Dispatches(self, msgs) + register + rest == Dispatches(self, msgs) + (register + rest);
    RunFirst(env, DispatchMessages(env, w, self, msgs).w, register[0], rest);
    assert [] + rest == rest;
  }

  lemma {:induction false} DispatchesRefine(env: Env, w: World, self: address, msgs: seq<CosmosMsg>, rest: seq<Task>)
    requires w.meter.Metered?
    ensures Run(env, w, Dispatches(self, msgs) + rest) == Continue(env, DispatchMessages(env, w, self, msgs), rest)
    decreases GasLeft(w), 5, |msgs|
  {
    if msgs == [] {
      assert Dispatches(self, msgs) + rest == rest;
    } else {
      var others := Dispatches(self, msgs[1..]);
      assert Dispatches(self, msgs) + rest == [Dispatch(self, msgs[0])] + (others + rest);
      DispatchRefines(env, w, self, msgs[0], others + rest);
      var first := DispatchMessage(env, w, self, msgs[0]);
      if first.out.Ok? {
        DispatchesRefine(env, first.w, self, msgs[1..], rest);
      }
    }
  }

  lemma {:induction false} DispatchRefines(env: Env, w: World, self: address, m: CosmosMsg, rest: seq<Task>)
    requires w.meter.Metered?
    ensures Run(env, w, [Dispatch(self, m)] + rest) == Continue(env, DispatchMessage(env, w, self, m), rest)
    decreases GasLeft(w), 4, 0
  {
    hide Create, Transfer, ExecuteHead, InstantiateHead;
    RunFirst(env, w, Dispatch(self, m), rest);
    assert [] + rest == rest;
    if m.send.Some? {
      SendRefines(env, w, self, m.send.value.from, m.send.value.to, m.send.value.amount);
    } else if m.contract.Some? {
      var c := m.contract.value;
      if c.contractAddr.Parsed? {
        SendRefines(env, w, self, Parsed(self), c.contractAddr, c.send);
        var sent := SendTokens(env, w, self, Parsed(self), c.contractAddr, c.send);
        if sent.out.Ok? {
          CallRefines(env, sent.w, c.contractAddr.addr, self, c.msg, [], rest);
        }
      }
    } else if m.opaque_.Some? && m.opaque_.value.Some? {
      SdkRefines(env, w, self, m.opaque_.value.value, rest);
    }
  }

  lemma SendRefines(env: Env, w: World, self: address, origin: Text, target: Text, tokens: seq<WasmCoin>)
    requires w.meter.Metered?
    ensures var r, s := SendTokens(env, w, self, origin, target, tokens), StepSend(env, w, self, origin, target, tokens);
            r.w == s.w && r.out == Ending(s.out)
  {
    if tokens != [] {
      var converted := ConvertSendMsg(env, origin, target, tokens);
      if converted.Ok? && Authorised(self, converted.value) {
        assert HandleSdkMessage(env, w, self, converted.value) == Handle(env, w, converted.value);
      }
    }
  }

  lemma {:induction false} SdkRefines(env: Env, w: World, self: address, m: SdkMsg, rest: seq<Task>)
    requires w.meter.Metered?
    ensures var s := StepSdk(env, w, self, m);
            Continue(env, HandleSdkMessage(env, w, self, m), rest)
            == if s.out.Ok? then Run(env, s.w, s.out.value + rest) else Res(s.w, Ending(s.out))
    decreases GasLeft(w), 2, 0
  {
    hide Later, Create, Transfer, Execute, Instantiate, Weight;
    assert [] + rest == rest;
    if Authorised(self, m) {
      match m {
        case InstantiateContract(sender, codeID, initMsg, funds) =>
          LaunchRefines(env, w, codeID, sender, initMsg, funds, rest);
        case ExecuteContract(sender, contract, msg, funds) =>
          CallRefines(env, w, contract, sender, msg, funds, rest);
        case _ =>
      }
    }
  }

  /** Execute ends as the machine does when given that one call. */
  lemma ExecuteIsRun(env: Env, w: World, addr: bytes, caller: bytes, msg: bytes, coins: seq<Coin>)
    requires w.meter.Metered?
    ensures var r := Execute(env, w, addr, caller, msg, coins);
            Run(env, w, [Call(addr, caller, msg, coins)]) == Res(r.w, Ending(r.out))
  {
    var t := Call(addr, caller, msg, coins);
    CallRefines(env, w, addr, caller, msg, coins, []);
    assert [t] + [] == [t];
  }

  /** Instantiate ends as the machine does when given that one launch. */
  lemma InstantiateIsRun(env: Env, w: World, codeID: uint64, creator: bytes, initMsg: bytes, deposit: seq<Coin>)
    requires w.meter.Metered?
    ensures var r := Instantiate(env, w, codeID, creator, initMsg, deposit);
            Run(env, w, [Launch(codeID, creator, initMsg, deposit)]) == Res(r.w, Ending(r.out))
  {
    var t := Launch(codeID, creator, initMsg, deposit);
    LaunchRefines(env, w, codeID, creator, initMsg, deposit, []);
    assert [t] + [] == [t];
  }
}
