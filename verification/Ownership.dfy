/** Contract data always has an owner: outside a running instantiation, only registered contracts
    have data. */
module Ownership {
  import opened Bytes
  import opened Layout
  import opened Coins
  import opened Bank
  import opened Types
  import opened Engine
  import opened Machine
  import opened Effects
  import opened Registrations

  predicate Awaits(ts: seq<Task>, a: address) {
    exists t :: t in ts && t.Register? && t.instance == a
  }

  /** Whoever has data is registered, or its registration is waiting on the stack. */
  ghost predicate Owned(w: World, ts: seq<Task>) {
    forall a: address :: SubStore(w.reg, a) != map[] ==> a in w.reg.contracts || Awaits(ts, a)
  }

  lemma AwaitsAfter(t: Task, todo: seq<Task>, rest: seq<Task>, a: address)
    ensures Awaits([t] + rest, a) ==> (t.Register? && t.instance == a) || Awaits(todo + rest, a)
    ensures Awaits(todo, a) ==> Awaits(todo + rest, a)
  {
    if Awaits([t] + rest, a) {
      var u :| u in [t] + rest && u.Register? && u.instance == a;
      assert u == t || u in todo + rest;
    }
    if Awaits(todo, a) {
      var u :| u in todo && u.Register? && u.instance == a;
      assert u in todo + rest;
    }
  }

  /** Entries of `w` remain, and the data of every address but `self` is as before. */
  ghost predicate OnlyDataOf(w: World, v: World, self: address) {
    && v.reg.contracts == w.reg.contracts
    && forall a: address :: a != self ==> SubStore(v.reg, a) == SubStore(w.reg, a)
  }

  lemma CallOnlyDataOf(env: Env, w: World, addr: bytes, caller: bytes, msg: bytes, coins: seq<Coin>)
    requires w.meter.Metered?
    ensures var r := ExecuteHead(env, w, addr, caller, msg, coins);
            r.out.Ok? ==> |addr| == 20 && addr in w.reg.contracts && OnlyDataOf(w, r.w, addr)
  {
    hide ExecuteHead, Sound, SubStore, Later;
    ExecuteHeadEffect(env, w, addr, caller, msg, coins);
    var w1 := Log(w, Called(addr)).(bank := ExecuteHead(env, w, addr, caller, msg, coins).w.bank);
    SameData(w.reg, w1.reg);
  }

  lemma LaunchOnlyDataOf(env: Env, w: World, codeID: uint64, creator: bytes, initMsg: bytes, deposit: seq<Coin>)
    requires w.meter.Metered?
    ensures var r := InstantiateHead(env, w, codeID, creator, initMsg, deposit);
            r.out.Ok? ==> OnlyDataOf(w, r.w, r.out.value.0)
  {
    hide InstantiateHead, Sound, SubStore, NewAddress, Later;
    InstantiateHeadEffect(env, w, codeID, creator, initMsg, deposit);
    var w1 := Drawn(w, codeID).(bank := InstantiateHead(env, w, codeID, creator, initMsg, deposit).w.bank);
    SameData(w.reg, w1.reg);
  }

  lemma OwnedAfter(w: World, v: World, self: address, t: Task, todo: seq<Task>, rest: seq<Task>)
    requires Owned(w, [t] + rest) && OnlyDataOf(w, v, self) && !t.Register?
    requires self in w.reg.contracts || Awaits(todo, self)
    ensures Owned(v, todo + rest)
  {
    hide SubStore, Awaits;
    forall a: address | SubStore(v.reg, a) != map[] ensures a in v.reg.contracts || Awaits(todo + rest, a) {
      AwaitsAfter(t, todo, rest, a);
    }
  }

  /** A step that succeeds leaves no data without an owner. */
  lemma StepKeepsOwned(env: Env, w: World, t: Task, rest: seq<Task>)
    requires w.meter.Metered? && Owned(w, [t] + rest)
    ensures var r := Step(env, w, t);
            r.out.Ok? ==> Owned(r.w, r.out.value + rest)
  {
    hide ExecuteHead, InstantiateHead, StepSdk, StepSend, Encode, Weight, Sound, Owned, OnlyDataOf, Awaits, Compiles, Later;
    var r := Step(env, w, t);
    if r.out.Ok? {
      match t {
        case Call(addr, caller, msg, coins) =>
          CallOnlyDataOf(env, w, addr, caller, msg, coins);
          OwnedAfter(w, r.w, addr, t, r.out.value, rest);
        case Launch(codeID, creator, initMsg, deposit) =>
          LaunchOnlyDataOf(env, w, codeID, creator, initMsg, deposit);
          var todo := r.out.value;
          var addr := InstantiateHead(env, w, codeID, creator, initMsg, deposit).out.value.0;
          RegisterAwaits(todo, addr);
          OwnedAfter(w, r.w, addr, t, todo, rest);
        case Register(instance, info) =>
          RegisterEffect(env, w, instance, info);
          RegisterKeepsOwned(w, r.w, instance, info, rest);
        case Dispatch(self, m) =>
          DispatchHasEffect(env, w, self, m);
          DispatchKeepsOwned(w, r.w, t, r.out.value, rest);
      }
    }
  }

  lemma RegisterAwaits(todo: seq<Task>, a: address)
    requires todo != [] && todo[|todo| - 1].Register? && todo[|todo| - 1].instance == a
    ensures Awaits(todo, a)
  {
    assert todo[|todo| - 1] in todo;
  }

  lemma RegisterKeepsOwned(w: World, v: World, instance: address, info: ContractInfo, rest: seq<Task>)
    requires Owned(w, [Register(instance, info)] + rest)
    requires Idle(w.(reg := w.reg.(contracts := w.reg.contracts[instance := info])), v)
    ensures Owned(v, [] + rest)
  {
    SameData(w.reg, v.reg);
    hide SubStore, Awaits;
    forall a: address | SubStore(v.reg, a) != map[] ensures a in v.reg.contracts || Awaits([] + rest, a) {
      AwaitsAfter(Register(instance, info), [], rest, a);
    }
  }

  lemma DispatchKeepsOwned(w: World, v: World, t: Task, todo: seq<Task>, rest: seq<Task>)
    requires Owned(w, [t] + rest) && !t.Register?
    requires v.reg.data == w.reg.data && v.reg.contracts == w.reg.contracts
    ensures Owned(v, todo + rest)
  {
    SameData(w.reg, v.reg);
    hide SubStore, Awaits;
    forall a: address | SubStore(v.reg, a) != map[] ensures a in v.reg.contracts || Awaits(todo + rest, a) {
      AwaitsAfter(t, todo, rest, a);
    }
  }

  /** When a run succeeds, all registrations have been made, so only contracts have data. */
  lemma {:induction false} RunKeepsOwned(env: Env, w: World, ts: seq<Task>)
    requires w.meter.Metered? && Owned(w, ts)
    ensures var r := Run(env, w, ts);
            r.out.Ok? ==> Owned(r.w, [])
    decreases GasLeft(w), Weight(ts)
  {
    hide Step, Owned;
    if ts != [] {
      var s := Step(env, w, ts[0]);
      assert ts == [ts[0]] + ts[1..];
      StepKeepsOwned(env, w, ts[0], ts[1..]);
      if s.out.Ok? {
        WeightOfConcat(s.out.value, ts[1..]);
        RunKeepsOwned(env, s.w, s.out.value + ts[1..]);
      }
    }
  }
}
