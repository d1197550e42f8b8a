/** Gas over a whole call tree: what contracts report, what they are charged, and how often they
    can run. */
module Metering {
  import opened Bytes
  import opened Layout
  import opened Coins
  import opened Bank
  import opened Gas
  import opened Types
  import opened Engine
  import opened Machine
  import opened Effects

  function UsedIn(log: seq<Event>): nat {
    if log == [] then 0
    else UsedIn(log[..|log| - 1]) + if log[|log| - 1].Billed? then log[|log| - 1].used else 0
  }

  function ChargedIn(log: seq<Event>): nat {
    if log == [] then 0
    else ChargedIn(log[..|log| - 1]) + if log[|log| - 1].Billed? then log[|log| - 1].charged else 0
  }

  function BillsIn(log: seq<Event>): nat {
    if log == [] then 0
    else BillsIn(log[..|log| - 1]) + if log[|log| - 1].Billed? then 1 else 0
  }

  /** How often contract code was run. */
  function RunsIn(log: seq<Event>): nat {
    if log == [] then 0
    else RunsIn(log[..|log| - 1]) + if log[|log| - 1].Ran? then 1 else 0
  }

  ghost predicate FairBills(env: Env, log: seq<Event>) {
    forall i :: 0 <= i < |log| && log[i].Billed? ==> FairBill(env, log[i])
  }

  /** Rounding down loses less than one unit of SDK gas per invocation, and never overcharges. */
  lemma {:induction false} FairBillsAddUp(env: Env, log: seq<Event>)
    requires FairBills(env, log)
    ensures GAS_MULTIPLIER * ChargedIn(log) <= UsedIn(log)
    ensures UsedIn(log) <= GAS_MULTIPLIER * ChargedIn(log) + (GAS_MULTIPLIER - 1) * BillsIn(log)
  {
    if log != [] {
      FairBillsAddUp(env, log[..|log| - 1]);
    }
  }

  lemma {:induction false} ChargedInConcat(a: seq<Event>, b: seq<Event>)
    ensures ChargedIn(a + b) == ChargedIn(a) + ChargedIn(b)
    ensures RunsIn(a + b) == RunsIn(a) + RunsIn(b)
    ensures BillsIn(a + b) == BillsIn(a) + BillsIn(b)
  {
    if b == [] {
      assert a + b == a;
    } else {
      assert (a + b)[..|a + b| - 1] == a + b[..|b| - 1];
      ChargedInConcat(a, b[..|b| - 1]);
    }
  }

  /** Honest bills for everything new, all of it paid by the meter, and no more runs than gas. */
  ghost predicate Metes(env: Env, w: World, v: World) {
    && Later(w, v)
    && FairBills(env, News(w, v))
    && RunsIn(News(w, v)) + GasLeft(v) <= GasLeft(w)
    && (w.meter.Metered? ==> v.meter.consumed >= w.meter.consumed + ChargedIn(News(w, v)))
  }

  lemma MetesNothing(env: Env, w: World, v: World)
    requires Later(w, v) && GasLeft(v) <= GasLeft(w)
    requires forall i :: |w.log| <= i < |v.log| ==> !v.log[i].Billed? && !v.log[i].Ran?
    ensures Metes(env, w, v)
  {
    NoBills(News(w, v));
  }

  lemma {:induction false} NoBills(log: seq<Event>)
    requires forall i :: 0 <= i < |log| ==> !log[i].Billed? && !log[i].Ran?
    ensures ChargedIn(log) == 0 && RunsIn(log) == 0
  {
    if log != [] {
      NoBills(log[..|log| - 1]);
    }
  }

  lemma MetesTrans(env: Env, w: World, v: World, u: World)
    requires Metes(env, w, v) && Metes(env, v, u)
    ensures Metes(env, w, u)
  {
    assert News(w, u) == News(w, v) + News(v, u);
    ChargedInConcat(News(w, v), News(v, u));
  }

  lemma InvokedMetes(env: Env, w: World, v: World, self: address, finished: bool)
    requires Invoked(env, w, v, self, finished) && Later(w, v) && GasLeft(v) < GasLeft(w)
    ensures Metes(env, w, v)
  {
    hide SubStore, ChargeFor, GasLeft;
    var start := v.log[..|w.log| + 1];
    assert start[|w.log|] == Ran(self);
    var news := News(w, v);
    assert news[0] == start[|w.log|];
    assert news[..1] == [Ran(self)];
    assert RunsIn([Ran(self)]) == 1 && ChargedIn([Ran(self)]) == 0 by {
      assert [Ran(self)][..0] == [];
    }
    if |news| == 2 {
      assert news[..|news| - 1] == news[..1];
    } else {
      assert news == news[..1];
    }
  }

  lemma CallMetes(env: Env, w: World, addr: bytes, caller: bytes, msg: bytes, coins: seq<Coin>)
    requires w.meter.Metered?
    ensures Metes(env, w, ExecuteHead(env, w, addr, caller, msg, coins).w)
  {
    hide ExecuteHead, Sound, Invoked, Metes;
    ExecuteHeadEffect(env, w, addr, caller, msg, coins);
    var r := ExecuteHead(env, w, addr, caller, msg, coins);
    var w1 := Log(w, Called(addr)).(bank := r.w.bank);
    if |addr| == 20 && GasLeft(r.w) < GasLeft(w) && Invoked(env, w1, r.w, addr, r.out.Ok?) {
      InvokedLog(env, w1, r.w, addr, r.out.Ok?);
      MetesNothing(env, w, w1);
      InvokedMetes(env, w1, r.w, addr, r.out.Ok?);
      MetesTrans(env, w, w1, r.w);
    } else {
      MetesNothing(env, w, r.w);
    }
  }

  lemma InvokedLog(env: Env, w: World, v: World, self: address, finished: bool)
    requires Invoked(env, w, v, self, finished)
    ensures w.log <= v.log
  {
    assert w.log == v.log[..|w.log| + 1][..|w.log|];
  }

  lemma LaunchMetes(env: Env, w: World, codeID: uint64, creator: bytes, initMsg: bytes, deposit: seq<Coin>)
    requires w.meter.Metered?
    ensures Metes(env, w, InstantiateHead(env, w, codeID, creator, initMsg, deposit).w)
  {
    hide InstantiateHead, Sound, Invoked, NewAddress, Metes;
    InstantiateHeadEffect(env, w, codeID, creator, initMsg, deposit);
    var r := InstantiateHead(env, w, codeID, creator, initMsg, deposit);
    var addr := NewAddress(env, w, codeID);
    var w1 := Drawn(w, codeID).(bank := r.w.bank);
    if GasLeft(r.w) < GasLeft(w) && Invoked(env, w1, r.w, addr, r.out.Ok?) {
      InvokedLog(env, w1, r.w, addr, r.out.Ok?);
      MetesNothing(env, w, w1);
      InvokedMetes(env, w1, r.w, addr, r.out.Ok?);
      MetesTrans(env, w, w1, r.w);
    } else {
      MetesNothing(env, w, r.w);
    }
  }

  lemma StepMetes(env: Env, w: World, t: Task)
    requires w.meter.Metered?
    ensures Metes(env, w, Step(env, w, t).w)
  {
    hide ExecuteHead, InstantiateHead, StepSdk, StepSend, Encode, Weight, Sound, Compiles, Metes;
    match t {
      case Call(addr, caller, msg, coins) =>
        CallMetes(env, w, addr, caller, msg, coins);
      case Launch(codeID, creator, initMsg, deposit) =>
        LaunchMetes(env, w, codeID, creator, initMsg, deposit);
      case Register(instance, info) =>
        MetesNothing(env, w, Step(env, w, t).w);
      case Dispatch(self, m) =>
        DispatchHasEffect(env, w, self, m);
        MetesNothing(env, w, Step(env, w, t).w);
    }
  }

  lemma {:induction false} RunMetes(env: Env, w: World, ts: seq<Task>)
    requires w.meter.Metered?
    ensures Metes(env, w, Run(env, w, ts).w)
    decreases GasLeft(w), Weight(ts)
  {
    hide Step, Metes;
    if ts == [] {
      MetesNothing(env, w, w);
    } else {
      var s := Step(env, w, ts[0]);
      StepMetes(env, w, ts[0]);
      if s.out.Ok? {
        WeightOfConcat(s.out.value, ts[1..]);
        RunMetes(env, s.w, s.out.value + ts[1..]);
        MetesTrans(env, w, s.w, Run(env, w, ts).w);
      }
    }
  }

  /** The gas account of a call tree: with U reported by n billed invocations, each for the input it
      was given, and C charged for them, 100 C <= U <= 100 C + 99 n, and the meter has advanced by
      at least C. */
  lemma ExecuteGasAccount(env: Env, w: World, addr: bytes, caller: bytes, msg: bytes, coins: seq<Coin>)
    requires w.meter.Metered?
    ensures var v := Execute(env, w, addr, caller, msg, coins).w;
            && FairBills(env, News(w, v))
            && GAS_MULTIPLIER * ChargedIn(News(w, v)) <= UsedIn(News(w, v))
            && UsedIn(News(w, v)) <= GAS_MULTIPLIER * ChargedIn(News(w, v)) + (GAS_MULTIPLIER - 1) * BillsIn(News(w, v))
            && v.meter.consumed >= w.meter.consumed + ChargedIn(News(w, v))
  {
    hide Execute, Run, UsedIn, ChargedIn, BillsIn, FairBills;
    ExecuteIsRun(env, w, addr, caller, msg, coins);
    RunMetes(env, w, [Call(addr, caller, msg, coins)]);
    FairBillsAddUp(env, News(w, Execute(env, w, addr, caller, msg, coins).w));
  }

  /** Termination, counted: a call tree runs contract code at most once per unit of gas it had. */
  lemma ExecuteRunsBounded(env: Env, w: World, addr: bytes, caller: bytes, msg: bytes, coins: seq<Coin>)
    requires w.meter.Metered?
    ensures var v := Execute(env, w, addr, caller, msg, coins).w;
            RunsIn(News(w, v)) <= GasLeft(w) - GasLeft(v)
  {
    hide Execute, Run, RunsIn;
    ExecuteIsRun(env, w, addr, caller, msg, coins);
    RunMetes(env, w, [Call(addr, caller, msg, coins)]);
  }

  // ------------------------------------------------------------------ nothing runs for free

  /** As many bills as runs. */
  ghost predicate AllBilled(w: World, v: World) {
    w.log <= v.log && BillsIn(News(w, v)) == RunsIn(News(w, v))
  }

  lemma OneRunOneBill(w: World, v: World)
    requires w.log <= v.log && |v.log| == |w.log| + 3
    requires var e := v.log[|w.log|]; !e.Ran? && !e.Billed?
    requires v.log[|w.log| + 1].Ran? && v.log[|w.log| + 2].Billed?
    ensures AllBilled(w, v)
  {
    var news := News(w, v);
    var first, second := [news[0]], [news[1]];
    assert news == first + second + [news[2]];
    ChargedInConcat(first + second, [news[2]]);
    ChargedInConcat(first, second);
    assert first[..0] == [] && second[..0] == [] && [news[2]][..0] == [];
  }

  lemma NoRunNoBill(w: World, v: World)
    requires w.log == v.log
    ensures AllBilled(w, v)
  {
    assert News(w, v) == [];
  }

  lemma CallBillsAll(env: Env, w: World, addr: bytes, caller: bytes, msg: bytes, coins: seq<Coin>)
    requires w.meter.Metered? && ExecuteHead(env, w, addr, caller, msg, coins).out.Ok?
    ensures AllBilled(w, ExecuteHead(env, w, addr, caller, msg, coins).w)
  {
    hide ExecuteHead, Sound, AllBilled, SubStore, FairBill, GasLeft;
    ExecuteHeadEffect(env, w, addr, caller, msg, coins);
    OneRunOneBill(w, ExecuteHead(env, w, addr, caller, msg, coins).w);
  }

  lemma LaunchBillsAll(env: Env, w: World, codeID: uint64, creator: bytes, initMsg: bytes, deposit: seq<Coin>)
    requires w.meter.Metered? && InstantiateHead(env, w, codeID, creator, initMsg, deposit).out.Ok?
    ensures AllBilled(w, InstantiateHead(env, w, codeID, creator, initMsg, deposit).w)
  {
    hide InstantiateHead, Sound, AllBilled, SubStore, FairBill, GasLeft, NewAddress;
    InstantiateHeadEffect(env, w, codeID, creator, initMsg, deposit);
    OneRunOneBill(w, InstantiateHead(env, w, codeID, creator, initMsg, deposit).w);
  }

  lemma StepBillsAll(env: Env, w: World, t: Task)
    requires w.meter.Metered? && Step(env, w, t).out.Ok?
    ensures AllBilled(w, Step(env, w, t).w)
  {
    hide ExecuteHead, InstantiateHead, StepSdk, StepSend, Encode, Weight, Sound, Compiles, AllBilled;
    match t {
      case Call(addr, caller, msg, coins) =>
        CallBillsAll(env, w, addr, caller, msg, coins);
      case Launch(codeID, creator, initMsg, deposit) =>
        LaunchBillsAll(env, w, codeID, creator, initMsg, deposit);
      case Register(_, _) =>
        NoRunNoBill(w, Step(env, w, t).w);
      case Dispatch(self, m) =>
        DispatchHasEffect(env, w, self, m);
        NoRunNoBill(w, Step(env, w, t).w);
    }
  }

  /** In a run that succeeds every invocation of a contract was billed. */
  lemma {:induction false} RunBillsAll(env: Env, w: World, ts: seq<Task>)
    requires w.meter.Metered? && Run(env, w, ts).out.Ok?
    ensures AllBilled(w, Run(env, w, ts).w)
    decreases GasLeft(w), Weight(ts)
  {
    hide Step;
    if ts == [] {
      NoRunNoBill(w, w);
    } else {
      var s, v := Step(env, w, ts[0]), Run(env, w, ts).w;
      StepBillsAll(env, w, ts[0]);
      WeightOfConcat(s.out.value, ts[1..]);
      RunBillsAll(env, s.w, s.out.value + ts[1..]);
      assert News(w, v) == News(w, s.w) + News(s.w, v);
      ChargedInConcat(News(w, s.w), News(s.w, v));
    }
  }
}
