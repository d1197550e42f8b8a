/** Failure propagation: what a successful and a failed run look like, step by step. */
module Traces {
  import opened Bytes
  import opened Coins
  import opened Outcome
  import opened Types
  import opened Engine
  import opened Machine

  /** A configuration of the machine. */
  datatype State = State(w: World, stack: seq<Task>)

  /** The first task succeeds and its own tasks take its place. */
  ghost predicate Next(env: Env, s: State, t: State)
    requires s.w.meter.Metered?
  {
    && s.stack != []
    && var r := Step(env, s.w, s.stack[0]);
       r.out.Ok? && t == State(r.w, r.out.value + s.stack[1..])
  }

  /** Consecutive configurations, every step of which succeeded. */
  ghost predicate IsTrace(env: Env, ss: seq<State>) {
    && ss != []
    && (forall i :: 0 <= i < |ss| ==> ss[i].w.meter.Metered?)
    && (forall i :: 0 <= i < |ss| - 1 ==> Next(env, ss[i], ss[i + 1]))
  }

  /** Where a run stops: nothing is left to do, or what is on top fails, and then nothing below
      it is ever performed. */
  ghost predicate Stops(env: Env, s: State, r: Res<()>)
    requires s.w.meter.Metered?
  {
    if s.stack == [] then r == Res(s.w, Ok(()))
    else
      var f := Step(env, s.w, s.stack[0]);
      !f.out.Ok? && r == Res(f.w, Ending(f.out))
  }

  /** Every run is a chain of successful steps to a stop. */
  lemma {:induction false} RunHasTrace(env: Env, w: World, stack: seq<Task>) returns (ss: seq<State>)
    requires w.meter.Metered?
    ensures IsTrace(env, ss) && ss[0] == State(w, stack) && Stops(env, ss[|ss| - 1], Run(env, w, stack))
    decreases GasLeft(w), Weight(stack)
  {
    hide Step;
    ss := [State(w, stack)];
    if stack != [] {
      var r := Step(env, w, stack[0]);
      if r.out.Ok? {
        WeightOfConcat(r.out.value, stack[1..]);
        var tail := RunHasTrace(env, r.w, r.out.value + stack[1..]);
        ss := ss + tail;
        forall i | 0 <= i < |ss| - 1 ensures Next(env, ss[i], ss[i + 1]) {
          if i > 0 {
            assert ss[i] == tail[i - 1] && ss[i + 1] == tail[i];
          }
        }
      }
    }
  }

  /** Any chain of successful steps to a stop is the run, and its outcome the run's outcome. */
  lemma {:induction false} TraceIsRun(env: Env, ss: seq<State>, r: Res<()>)
    requires IsTrace(env, ss) && Stops(env, ss[|ss| - 1], r)
    ensures Run(env, ss[0].w, ss[0].stack) == r
    decreases |ss|
  {
    hide Step;
    if |ss| > 1 {
      assert Next(env, ss[0], ss[1]);
      forall i | 0 <= i < |ss[1..]| - 1 ensures Next(env, ss[1..][i], ss[1..][i + 1]) {
        assert Next(env, ss[i + 1], ss[i + 2]);
      }
      TraceIsRun(env, ss[1..], r);
    }
  }

  /** Execute succeeds exactly when some chain of successful steps, starting from that one call,
      empties the stack: every transfer and nested call on the way succeeded. */
  lemma ExecuteSucceedsIff(env: Env, w: World, addr: bytes, caller: bytes, msg: bytes, coins: seq<Coin>)
    requires w.meter.Metered?
    ensures Execute(env, w, addr, caller, msg, coins).out.Ok?
            <==> exists ss: seq<State> :: IsTrace(env, ss) && ss[0] == State(w, [Call(addr, caller, msg, coins)]) && ss[|ss| - 1].stack == []
  {
    hide Execute, Step;
    var stack := [Call(addr, caller, msg, coins)];
    ExecuteIsRun(env, w, addr, caller, msg, coins);
    var ss := RunHasTrace(env, w, stack);
    forall ts: seq<State> | IsTrace(env, ts) && ts[0] == State(w, stack) && ts[|ts| - 1].stack == []
      ensures Run(env, w, stack).out.Ok?
    {
      TraceIsRun(env, ts, Res(ts[|ts| - 1].w, Ok(())));
    }
  }
}
