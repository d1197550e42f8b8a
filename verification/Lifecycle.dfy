/** The life of a contract address: drawn once, never shared, and not callable until registered. */
module Lifecycle {
  import opened Bytes
  import opened Outcome
  import opened Layout
  import opened Coins
  import opened Bank
  import opened Gas
  import opened Types
  import opened Engine
  import opened Machine
  import opened Effects
  import opened Registrations

  // ------------------------------------------------------------------ no early calls

  predicate NotAwaited(ts: seq<Task>, a: address) {
    forall t :: t in ts && t.Register? ==> t.instance != a
  }

  /** `a` has an account but no contract, and nothing here will register it. */
  ghost predicate Unborn(w: World, a: address) {
    a in w.bank && a !in w.reg.contracts
  }

  /** New events: no run of `a`, and after a success no attempt to call it. */
  ghost predicate Untouched(w: World, v: World, a: address, ok: bool) {
    forall i :: |w.log| <= i < |v.log| ==> v.log[i] != Ran(a) && (ok ==> v.log[i] != Called(a))
  }

  lemma UntouchedTrans(w: World, v: World, u: World, a: address, ok: bool)
    requires Later(w, v) && Later(v, u)
    requires Untouched(w, v, a, true) && Untouched(v, u, a, ok)
    ensures Untouched(w, u, a, ok)
  {
    forall i | |w.log| <= i < |u.log| ensures u.log[i] != Ran(a) && (ok ==> u.log[i] != Called(a)) {
      if i < |v.log| {
        assert u.log[i] == v.log[i];
      }
    }
  }

  lemma InvokedEvents(env: Env, w: World, v: World, self: address, finished: bool, n: nat, a: address)
    requires Invoked(env, w, v, self, finished) && self != a && n <= |w.log|
    requires forall i :: n <= i < |w.log| ==> w.log[i] != Ran(a) && w.log[i] != Called(a)
    ensures forall i :: n <= i < |v.log| ==> v.log[i] != Ran(a) && v.log[i] != Called(a)
  {
    var start := v.log[..|w.log| + 1];
    forall i | n <= i < |v.log| ensures v.log[i] != Ran(a) && v.log[i] != Called(a) {
      if i <= |w.log| {
        assert v.log[i] == start[i];
      }
    }
  }

  lemma CallLeavesUnborn(env: Env, w: World, addr: bytes, caller: bytes, msg: bytes, coins: seq<Coin>, a: address)
    requires w.meter.Metered? && Unborn(w, a)
    ensures var r := ExecuteHead(env, w, addr, caller, msg, coins);
            Untouched(w, r.w, a, r.out.Ok?) && Unborn(r.w, a)
  {
    hide ExecuteHead, Total, Balance, NonNegative, Invoked, SubStore, GasLeft;
    ExecuteHeadEffect(env, w, addr, caller, msg, coins);
    var r := ExecuteHead(env, w, addr, caller, msg, coins);
    var w1 := Log(w, Called(addr)).(bank := r.w.bank);
    if |addr| == 20 && addr in w.reg.contracts && Invoked(env, w1, r.w, addr, r.out.Ok?) {
      InvokedEvents(env, w1, r.w, addr, r.out.Ok?, |w.log|, a);
      InvokedKeepsContracts(env, w1, r.w, addr, r.out.Ok?);
    }
  }

  lemma InvokedKeepsContracts(env: Env, w: World, v: World, self: address, finished: bool)
    requires Invoked(env, w, v, self, finished)
    ensures v.reg.contracts == w.reg.contracts && v.bank == w.bank && v.reg.instanceSeq == w.reg.instanceSeq
  {
  }

  lemma LaunchLeavesUnborn(env: Env, w: World, codeID: uint64, creator: bytes, initMsg: bytes, deposit: seq<Coin>, a: address)
    requires w.meter.Metered? && Unborn(w, a)
    ensures var r := InstantiateHead(env, w, codeID, creator, initMsg, deposit);
            && Untouched(w, r.w, a, r.out.Ok?) && Unborn(r.w, a)
            && (r.out.Ok? ==> r.out.value.0 != a)
  {
    hide InstantiateHead, Total, Balance, NonNegative, Invoked, SubStore, GasLeft, NewAddress;
    InstantiateHeadEffect(env, w, codeID, creator, initMsg, deposit);
    var r := InstantiateHead(env, w, codeID, creator, initMsg, deposit);
    var addr := NewAddress(env, w, codeID);
    var w1 := Drawn(w, codeID).(bank := r.w.bank);
    if addr !in w.bank && Invoked(env, w1, r.w, addr, r.out.Ok?) {
      InvokedEvents(env, w1, r.w, addr, r.out.Ok?, |w.log|, a);
      InvokedKeepsContracts(env, w1, r.w, addr, r.out.Ok?);
    }
  }

  lemma StepLeavesUnborn(env: Env, w: World, t: Task, a: address)
    requires w.meter.Metered? && Unborn(w, a) && NotAwaited([t], a)
    ensures var r := Step(env, w, t);
            && Untouched(w, r.w, a, r.out.Ok?) && Unborn(r.w, a)
            && (r.out.Ok? ==> NotAwaited(r.out.value, a))
  {
    hide ExecuteHead, InstantiateHead, StepSdk, StepSend, Encode, Weight, GasLeft, Total, Balance, NonNegative, Compiles;
    assert t in [t];
    match t {
      case Call(addr, caller, msg, coins) =>
        CallLeavesUnborn(env, w, addr, caller, msg, coins, a);
      case Launch(codeID, creator, initMsg, deposit) =>
        LaunchLeavesUnborn(env, w, codeID, creator, initMsg, deposit, a);
      case Register(instance, info) =>
        RegisterEffect(env, w, instance, info);
      case Dispatch(self, m) =>
        DispatchHasEffect(env, w, self, m);
    }
  }

  /** While an address is unborn, no run executes it, and a run that tries fails as a whole. */
  lemma {:induction false} RunLeavesUnborn(env: Env, w: World, ts: seq<Task>, a: address)
    requires w.meter.Metered? && Unborn(w, a) && NotAwaited(ts, a)
    ensures var r := Run(env, w, ts);
            Untouched(w, r.w, a, r.out.Ok?) && Unborn(r.w, a)
    decreases GasLeft(w), Weight(ts)
  {
    hide Step, Unborn, Untouched;
    if ts == [] {
      UntouchedHere(w, a);
    } else {
      var s := Step(env, w, ts[0]);
      assert ts[0] in ts;
      StepLeavesUnborn(env, w, ts[0], a);
      if s.out.Ok? {
        WeightOfConcat(s.out.value, ts[1..]);
        var r := Run(env, w, ts);
        RunLeavesUnborn(env, s.w, s.out.value + ts[1..], a);
        UntouchedTrans(w, s.w, r.w, a, r.out.Ok?);
      }
    }
  }

  lemma UntouchedHere(w: World, a: address)
    ensures Untouched(w, w, a, true)
  {
  }

  /** No early calls: from the moment a new contract's init code has run until Instantiate ends,
      its code never runs again, and if any message at any depth tries to execute it, the whole
      instantiation fails. */
  lemma NoEarlyCalls(env: Env, w: World, codeID: uint64, creator: bytes, initMsg: bytes, deposit: seq<Coin>)
    requires w.meter.Metered? && ContractsBacked(w)
    ensures var head := InstantiateHead(env, w, codeID, creator, initMsg, deposit);
            var r := Instantiate(env, w, codeID, creator, initMsg, deposit);
            head.out.Ok? ==> Untouched(head.w, r.w, head.out.value.0, r.out.Ok?)
  {
    hide InstantiateHead, Run, Encode, Step, Sound;
    var head := InstantiateHead(env, w, codeID, creator, initMsg, deposit);
    LaunchIsQuiet(env, w, codeID, creator, initMsg, deposit);
    if head.out.Ok? {
      var (addr, res) := head.out.value;
      assert Unborn(head.w, addr);
      var ts := Dispatches(addr, res.messages);
      RunLeavesUnborn(env, head.w, ts, addr);
      DispatchesRefine(env, head.w, addr, res.messages, []);
      assert ts + [] == ts;
      DispatchesEnd(env, DispatchMessages(env, head.w, addr, res.messages));
    }
  }

  lemma DispatchesEnd(env: Env, r: Res<()>)
    requires r.w.meter.Metered?
    ensures Continue(env, r, []) == r
  {
    if r.out.Ok? {
      assert r.out.value == ();
    }
  }

  /** A message that executes `a` directly. */
  predicate Targets(m: CosmosMsg, a: bytes) {
    m.send.None? && m.contract.Some? && m.contract.value.contractAddr == Parsed(a)
  }

  /** If all messages were dispatched, a call to every target was attempted. */
  lemma {:induction false} TargetsAreCalled(env: Env, w: World, self: address, msgs: seq<CosmosMsg>, i: nat, a: bytes)
    requires w.meter.Metered? && i < |msgs| && Targets(msgs[i], a)
    requires DispatchMessages(env, w, self, msgs).out.Ok?
    ensures var v := DispatchMessages(env, w, self, msgs).w;
            exists k :: |w.log| <= k < |v.log| && v.log[k] == Called(a)
    decreases i
  {
    hide ExecuteHead, SendTokens, HandleSdkMessage;
    var first := DispatchMessage(env, w, self, msgs[0]);
    var v := DispatchMessages(env, w, self, msgs).w;
    if i > 0 {
      TargetsAreCalled(env, first.w, self, msgs[1..], i - 1, a);
      var k :| |first.w.log| <= k < |v.log| && v.log[k] == Called(a);
    } else {
      var c := msgs[0].contract.value;
      var sent := SendTokens(env, w, self, Parsed(self), c.contractAddr, c.send);
      CallIsLogged(env, sent.w, a, self, c.msg, []);
      var x := Execute(env, sent.w, a, self, c.msg, []);
      assert x.w == first.w;
      assert v.log[|sent.w.log|] == first.w.log[|sent.w.log|];
    }
  }

  lemma CallIsLogged(env: Env, w: World, addr: bytes, caller: bytes, msg: bytes, coins: seq<Coin>)
    requires w.meter.Metered?
    ensures var v := Execute(env, w, addr, caller, msg, coins).w;
            |w.log| < |v.log| && v.log[|w.log|] == Called(addr)
  {
    hide Transfer, Invoke, GetAccount, ContractInstance, DispatchMessages;
    var w0 := Log(w, Called(addr));
    var head := ExecuteHead(env, w, addr, caller, msg, coins);
    assert Later(w0, ContractInstance(env, w0, addr).w);
    assert Later(w0, head.w);
  }

  /** In particular a contract whose init code sends itself a message is never created. */
  lemma SelfCallInInitFails(env: Env, w: World, codeID: uint64, creator: bytes, initMsg: bytes, deposit: seq<Coin>, i: nat)
    requires w.meter.Metered? && ContractsBacked(w)
    requires var head := InstantiateHead(env, w, codeID, creator, initMsg, deposit);
             head.out.Ok? && i < |head.out.value.1.messages| && Targets(head.out.value.1.messages[i], head.out.value.0)
    ensures !Instantiate(env, w, codeID, creator, initMsg, deposit).out.Ok?
  {
    hide InstantiateHead, ContractsBacked, Encode;
    NoEarlyCalls(env, w, codeID, creator, initMsg, deposit);
    var head := InstantiateHead(env, w, codeID, creator, initMsg, deposit);
    var (addr, res) := head.out.value;
    var sent := DispatchMessages(env, head.w, addr, res.messages);
    if sent.out.Ok? {
      TargetsAreCalled(env, head.w, addr, res.messages, i, addr);
      var k :| |head.w.log| <= k < |sent.w.log| && sent.w.log[k] == Called(addr);
      var v := Instantiate(env, w, codeID, creator, initMsg, deposit).w;
      assert sent.w.log <= v.log;
      assert v.log[k] == Called(addr);
    }
  }

  // ------------------------------------------------------------------ unique addresses

  const TWO_32: int := 0x1_0000_0000

  /** When two contract ids coincide, for all code and instance ids. */
  lemma ContractIDsCollideIff(codeID: uint64, instanceID: uint64, codeID': uint64, instanceID': uint64)
    ensures ContractID(codeID, instanceID) == ContractID(codeID', instanceID')
            <==> && instanceID % TWO_32 == instanceID' % TWO_32
                 && (codeID + instanceID / TWO_32) % TWO_32 == (codeID' + instanceID' / TWO_32) % TWO_32
  {
    ContractIDParts(codeID, instanceID);
    ContractIDParts(codeID', instanceID');
  }

  lemma ContractIDParts(codeID: uint64, instanceID: uint64)
    ensures ContractID(codeID, instanceID)
            == (codeID + instanceID / TWO_32) % TWO_32 * TWO_32 + instanceID % TWO_32
  {
    var high := codeID + instanceID / TWO_32;
    WrapParts(high / TWO_32, high % TWO_32, instanceID % TWO_32);
  }

  /** Dropping what is above 64 bits keeps the low halves. */
  lemma WrapParts(top: nat, high: nat, low: nat)
    requires high < TWO_32 && low < TWO_32
    ensures ((top * TWO_32 + high) * TWO_32 + low) % TWO_64 == high * TWO_32 + low
  {
    var rest := high * TWO_32 + low;
    assert (top * TWO_32 + high) * TWO_32 + low == top * TWO_64 + rest;
    assert 0 <= rest < TWO_64;
  }

  /** Two different pairs share a contract id once an instance id passes 32 bits. */
  lemma LateInstancesCollide()
    ensures ContractID(1, TWO_32 + 1) == ContractID(2, 1)
  {
  }

  /** The instance ids drawn in a stretch of history, in order. */
  function DrawnIDs(events: seq<Event>): seq<uint64> {
    if events == [] then []
    else (if events[0].Generated? then [events[0].instanceID] else []) + DrawnIDs(events[1..])
  }

  lemma ConcatAssoc(x: seq<uint64>, y: seq<uint64>, z: seq<uint64>)
    ensures (x + y) + z == x + (y + z)
  {
  }

  lemma {:induction false} DrawnIDsOfConcat(a: seq<Event>, b: seq<Event>)
    ensures DrawnIDs(a + b) == DrawnIDs(a) + DrawnIDs(b)
  {
    if a == [] {
      assert a + b == b;
    } else {
      var first: seq<uint64>, rest := if a[0].Generated? then [a[0].instanceID] else [], a[1..];
      DrawnIDsOfConcat(rest, b);
      ConcatAssoc(first, DrawnIDs(rest), DrawnIDs(b));
      assert (a + b)[1..] == rest + b && (a + b)[0] == a[0];
    }
  }

  lemma {:induction false} NoneDrawn(events: seq<Event>)
    ensures DrawnIDs(events) == [] <==> forall i :: 0 <= i < |events| ==> !events[i].Generated?
  {
    if events != [] {
      NoneDrawn(events[1..]);
      if forall i :: 0 <= i < |events[1..]| ==> !events[1..][i].Generated? {
        forall i | 0 < i < |events| ensures !events[i].Generated? {
          assert events[i] == events[1..][i - 1];
        }
      }
    }
  }

  /** The `n` ids a counter hands out next, in uint64 arithmetic. */
  function IDsFrom(first: uint64, n: nat): (ids: seq<uint64>)
    ensures |ids| == n
  {
    seq(n, i requires 0 <= i < n => (first + i) % TWO_64)
  }

  /** A counter that has handed out `n` ids. */
  function Advanced(counter: Option<uint64>, n: nat): Option<uint64> {
    if n == 0 then counter else Some((Next(counter) + n) % TWO_64)
  }

  /** From `w` to `v` the ids drawn are those that follow the counter of `w`, each once and in
      order, and the counter of `v` follows the last of them. */
  ghost predicate DrawsInOrder(w: World, v: World) {
    && w.log <= v.log
    && var ids := DrawnIDs(News(w, v));
       ids == IDsFrom(Next(w.reg.instanceSeq), |ids|) && v.reg.instanceSeq == Advanced(w.reg.instanceSeq, |ids|)
  }

  /** Drawing instance ids is paid for in gas. */
  ghost predicate DrawsPaid(w: World, v: World) {
    w.log <= v.log && |DrawnIDs(News(w, v))| + GasLeft(v) <= GasLeft(w)
  }

  lemma WrapAdds(x: int, y: int)
    ensures (x % TWO_64 + y) % TWO_64 == (x + y) % TWO_64
  {
    assert x == x / TWO_64 * TWO_64 + x % TWO_64;
    WrapMultiple(x / TWO_64, x % TWO_64 + y);
  }

  lemma WrapMultiple(k: int, x: int)
    ensures (k * TWO_64 + x) % TWO_64 == x % TWO_64
  {
  }

  lemma IDsFromSplit(first: uint64, m: nat, n: nat)
    ensures IDsFrom(first, m) + IDsFrom((first + m) % TWO_64, n) == IDsFrom(first, m + n)
  {
    var whole, second := IDsFrom(first, m + n), IDsFrom((first + m) % TWO_64, n);
    forall i | 0 <= i < n ensures second[i] == whole[m + i] {
      WrapAdds(first + m, i);
    }
  }

  lemma DrawsInOrderTrans(w: World, v: World, u: World)
    requires DrawsInOrder(w, v) && DrawsInOrder(v, u)
    ensures DrawsInOrder(w, u) && |DrawnIDs(News(w, u))| == |DrawnIDs(News(w, v))| + |DrawnIDs(News(v, u))|
  {
    hide DrawnIDs, IDsFrom;
    var m, n := |DrawnIDs(News(w, v))|, |DrawnIDs(News(v, u))|;
    assert News(w, u) == News(w, v) + News(v, u);
    DrawnIDsOfConcat(News(w, v), News(v, u));
    IDsFromSplit(Next(w.reg.instanceSeq), m, n);
    WrapAdds(Next(w.reg.instanceSeq) + m, n);
  }

  lemma DrawnLater(w: World, v: World)
    requires DrawsInOrder(w, v)
    ensures w.log <= v.log
  {
  }

  lemma NothingDrawn(w: World, v: World)
    requires v.log == w.log && v.reg.instanceSeq == w.reg.instanceSeq
    ensures DrawsInOrder(w, v) && DrawnIDs(News(w, v)) == []
  {
  }

  /** Either nothing was drawn, or exactly the next instance id, first of all. */
  ghost predicate Draws(w: World, v: World) {
    && Later(w, v)
    && (forall i :: |w.log| < i < |v.log| ==> !v.log[i].Generated?)
    && (|| (v.reg.instanceSeq == w.reg.instanceSeq && (|w.log| < |v.log| ==> !v.log[|w.log|].Generated?))
        || (&& GasLeft(v) < GasLeft(w)
            && v.reg.instanceSeq == Some((Next(w.reg.instanceSeq) + 1) % TWO_64)
            && |w.log| < |v.log|
            && v.log[|w.log|].Generated? && v.log[|w.log|].instanceID == Next(w.reg.instanceSeq)))
  }

  lemma InvokedDrawsNothing(env: Env, w: World, v: World, self: address, finished: bool)
    requires Invoked(env, w, v, self, finished)
    ensures v.reg.instanceSeq == w.reg.instanceSeq
    ensures w.log <= v.log && forall i :: |w.log| <= i < |v.log| ==> !v.log[i].Generated?
  {
    var start := v.log[..|w.log| + 1];
    assert start[|w.log|] == Ran(self);
    assert w.log == start[..|w.log|];
  }

  lemma CallDraws(env: Env, w: World, addr: bytes, caller: bytes, msg: bytes, coins: seq<Coin>)
    requires w.meter.Metered?
    ensures Draws(w, ExecuteHead(env, w, addr, caller, msg, coins).w)
  {
    hide ExecuteHead, Sound, Invoked;
    ExecuteHeadEffect(env, w, addr, caller, msg, coins);
    var r := ExecuteHead(env, w, addr, caller, msg, coins);
    var w1 := Log(w, Called(addr)).(bank := r.w.bank);
    if |addr| == 20 && Invoked(env, w1, r.w, addr, r.out.Ok?) {
      InvokedDrawsNothing(env, w1, r.w, addr, r.out.Ok?);
      assert r.w.log[|w.log|] == w1.log[|w.log|];
    }
  }

  lemma LaunchDraws(env: Env, w: World, codeID: uint64, creator: bytes, initMsg: bytes, deposit: seq<Coin>)
    requires w.meter.Metered?
    ensures Draws(w, InstantiateHead(env, w, codeID, creator, initMsg, deposit).w)
  {
    hide InstantiateHead, Sound, Invoked, NewAddress;
    InstantiateHeadEffect(env, w, codeID, creator, initMsg, deposit);
    var r := InstantiateHead(env, w, codeID, creator, initMsg, deposit);
    var addr := NewAddress(env, w, codeID);
    var w1 := Drawn(w, codeID).(bank := r.w.bank);
    if Invoked(env, w1, r.w, addr, r.out.Ok?) {
      InvokedDrawsNothing(env, w1, r.w, addr, r.out.Ok?);
      assert r.w.log[|w.log|] == w1.log[|w.log|];
    }
  }

  lemma StepDraws(env: Env, w: World, t: Task)
    requires w.meter.Metered?
    ensures Draws(w, Step(env, w, t).w)
  {
    hide ExecuteHead, InstantiateHead, StepSdk, StepSend, Encode, Weight, Sound, Compiles;
    match t {
      case Call(addr, caller, msg, coins) =>
        CallDraws(env, w, addr, caller, msg, coins);
      case Launch(codeID, creator, initMsg, deposit) =>
        LaunchDraws(env, w, codeID, creator, initMsg, deposit);
      case Register(instance, info) =>
        RegisterEffect(env, w, instance, info);
      case Dispatch(self, m) =>
        DispatchHasEffect(env, w, self, m);
    }
  }

  lemma DrawsAreInOrder(w: World, v: World)
    requires Draws(w, v) && GasLeft(v) <= GasLeft(w)
    ensures DrawsInOrder(w, v) && DrawsPaid(w, v)
  {
    var news := News(w, v);
    if news != [] {
      var rest := news[1..];
      forall i | 0 <= i < |rest| ensures !rest[i].Generated? {
        assert rest[i] == v.log[|w.log| + 1 + i];
      }
      NoneDrawn(rest);
      assert news[0] == v.log[|w.log|];
    }
  }

  /** Over any run, nested instantiations included: the counter hands out one id after the other,
      never the same twice before it has wrapped around, and each draw costs gas. */
  lemma {:induction false} RunDrawsInOrder(env: Env, w: World, ts: seq<Task>)
    requires w.meter.Metered?
    ensures DrawsInOrder(w, Run(env, w, ts).w) && DrawsPaid(w, Run(env, w, ts).w)
    decreases GasLeft(w), Weight(ts)
  {
    hide Step, Draws, DrawnIDs, DrawsInOrder, IDsFrom;
    if ts == [] {
      NothingDrawn(w, w);
    } else {
      var s := Step(env, w, ts[0]);
      StepDraws(env, w, ts[0]);
      DrawsAreInOrder(w, s.w);
      if s.out.Ok? {
        WeightOfConcat(s.out.value, ts[1..]);
        RunDrawsInOrder(env, s.w, s.out.value + ts[1..]);
        DrawsInOrderTrans(w, s.w, Run(env, w, ts).w);
      }
    }
  }

  /** Two draws got the same instance id exactly when a multiple of 2^64 draws lies between them. */
  lemma DrawnIDsRepeatIff(w: World, v: World, i: nat, j: nat)
    requires DrawsInOrder(w, v) && i <= j < |DrawnIDs(News(w, v))|
    ensures var ids := DrawnIDs(News(w, v));
            ids[i] == ids[j] <==> (j - i) % TWO_64 == 0
  {
    hide DrawnIDs;
    var first := Next(w.reg.instanceSeq);
    WrapAdds(first + i, j - i);
    WrapFixed((first + i) % TWO_64, j - i);
  }

  lemma WrapFixed(x: uint64, k: nat)
    ensures (x + k) % TWO_64 == x <==> k % TWO_64 == 0
  {
    assert k == k / TWO_64 * TWO_64 + k % TWO_64;
    WrapMultiple(k / TWO_64, x + k % TWO_64);
    WrapMultiple(1, x + k % TWO_64 - TWO_64);
  }

  /** Where in the list of drawn ids an event stands. */
  lemma DrawnIDAt(events: seq<Event>, k: nat)
    requires k < |events| && events[k].Generated?
    ensures var i := |DrawnIDs(events[..k])|;
            && i < |DrawnIDs(events)| && DrawnIDs(events)[i] == events[k].instanceID
            && (forall l :: k < l <= |events| ==> i < |DrawnIDs(events[..l])|)
  {
    var i := |DrawnIDs(events[..k])|;
    forall l | k < l <= |events|
      ensures i < |DrawnIDs(events[..l])| && DrawnIDs(events[..l])[i] == events[k].instanceID
    {
      DrawnIDsOfConcat(events[..k], events[k..l]);
      assert events[..l] == events[..k] + events[k..l];
      assert events[k..l][0] == events[k];
    }
    assert events[..|events|] == events;
  }

  /** The id of a drawn instance stays below 32 bits. */
  predicate IsEarly(e: Event) {
    e.Generated? && e.instanceID < TWO_32
  }

  /** The address a draw leads to. */
  function AddressOf(env: Env, e: Event): address
    requires e.Generated?
  {
    AddrFromUint64(env, ContractID(e.codeID, e.instanceID))
  }

  function BufferOf(e: Event): bytes
    requires e.Generated?
  {
    AddressBuffer(ContractID(e.codeID, e.instanceID))
  }

  /** The address hash does not map two different buffers to one address. */
  predicate HashSeparates(env: Env, x: bytes, y: bytes) {
    x != y ==> env.addressHash(x) != env.addressHash(y)
  }

  /** Two draws have different contract ids and different 20-byte buffers, and therefore
      different addresses unless the hash collides on those two buffers. */
  ghost predicate Separate(env: Env, e: Event, f: Event)
    requires e.Generated? && f.Generated?
  {
    && ContractID(e.codeID, e.instanceID) != ContractID(f.codeID, f.instanceID)
    && BufferOf(e) != BufferOf(f)
    && (HashSeparates(env, BufferOf(e), BufferOf(f)) ==> AddressOf(env, e) != AddressOf(env, f))
  }

  /** Any two draws with ids below 32 bits are separate. */
  ghost predicate EarlyDrawsSeparate(env: Env, log: seq<Event>) {
    forall i, j :: 0 <= i < j < |log| && IsEarly(log[i]) && IsEarly(log[j]) ==> Separate(env, log[i], log[j])
  }

  lemma TwoDrawsDiffer(env: Env, w: World, v: World, k: nat, l: nat)
    requires DrawsInOrder(w, v) && |DrawnIDs(News(w, v))| <= TWO_64
    requires k < l < |News(w, v)| && IsEarly(News(w, v)[k]) && IsEarly(News(w, v)[l])
    ensures Separate(env, News(w, v)[k], News(w, v)[l])
  {
    DrawnLater(w, v);
    hide ContractID, AddressBuffer, DrawnIDs, DrawsInOrder, IDsFrom;
    var events := News(w, v);
    var e, f := events[k], events[l];
    var i, j := |DrawnIDs(events[..k])|, |DrawnIDs(events[..l])|;
    DrawnIDAt(events, k);
    DrawnIDAt(events, l);
    DrawnIDsRepeatIff(w, v, i, j);
    assert 0 < j - i < TWO_64;
    ContractIDsCollideIff(e.codeID, e.instanceID, f.codeID, f.instanceID);
    AddressBufferInjective(ContractID(e.codeID, e.instanceID), ContractID(f.codeID, f.instanceID));
  }

  /** All draws made from `w` to `v` with ids below 32 bits are separate, unless the counter went
      all the way round. */
  lemma DrawnIDsDiffer(env: Env, w: World, v: World)
    requires DrawsInOrder(w, v) && |DrawnIDs(News(w, v))| <= TWO_64
    ensures EarlyDrawsSeparate(env, News(w, v))
  {
    DrawnLater(w, v);
    hide Separate, DrawnIDs, DrawsInOrder;
    var events := News(w, v);
    forall k, l | 0 <= k < l < |events| && IsEarly(events[k]) && IsEarly(events[l])
      ensures Separate(env, events[k], events[l])
    {
      TwoDrawsDiffer(env, w, v, k, l);
    }
  }

  /** Unique addresses in one call tree, nested instantiations included: all draws whose ids stay
      below 32 bits are pairwise separate, from each other and from those made before the call
      since some `origin`, which may be the call's own start. */
  lemma ExecuteDrawsUniqueIDs(env: Env, origin: World, w: World, addr: bytes, caller: bytes, msg: bytes, coins: seq<Coin>)
    requires w.meter.Metered? && DrawsInOrder(origin, w)
    ensures var v := Execute(env, w, addr, caller, msg, coins).w;
            && origin.log <= v.log
            && (|DrawnIDs(News(origin, v))| <= TWO_64 ==> EarlyDrawsSeparate(env, News(origin, v)))
  {
    hide Execute, Run, DrawsInOrder, DrawnIDs, EarlyDrawsSeparate;
    ExecuteIsRun(env, w, addr, caller, msg, coins);
    RunDrawsInOrder(env, w, [Call(addr, caller, msg, coins)]);
    var v := Execute(env, w, addr, caller, msg, coins).w;
    DrawsInOrderTrans(origin, w, v);
    assert origin.log <= v.log by {
      DrawnLater(origin, v);
    }
    if |DrawnIDs(News(origin, v))| <= TWO_64 {
      DrawnIDsDiffer(env, origin, v);
    }
  }

  lemma InstantiateDrawsUniqueIDs(env: Env, origin: World, w: World, codeID: uint64, creator: bytes, initMsg: bytes, deposit: seq<Coin>)
    requires w.meter.Metered? && DrawsInOrder(origin, w)
    ensures var v := Instantiate(env, w, codeID, creator, initMsg, deposit).w;
            && origin.log <= v.log
            && (|DrawnIDs(News(origin, v))| <= TWO_64 ==> EarlyDrawsSeparate(env, News(origin, v)))
  {
    hide Instantiate, Run, DrawsInOrder, DrawnIDs, EarlyDrawsSeparate;
    InstantiateIsRun(env, w, codeID, creator, initMsg, deposit);
    RunDrawsInOrder(env, w, [Launch(codeID, creator, initMsg, deposit)]);
    var v := Instantiate(env, w, codeID, creator, initMsg, deposit).w;
    DrawsInOrderTrans(origin, w, v);
    assert origin.log <= v.log by {
      DrawnLater(origin, v);
    }
    if |DrawnIDs(News(origin, v))| <= TWO_64 {
      DrawnIDsDiffer(env, origin, v);
    }
  }

  // ------------------------------------------------------------------ the account check

  /** What drawing an instance id costs when the counter stands as given. */
  function CounterPrice(env: Env, counter: Option<uint64>): nat {
    env.readCost(KEY_LAST_INSTANCE_ID, ReadCounter(counter))
    + env.writeCost(KEY_LAST_INSTANCE_ID, Counter(Uint64ToBigEndian((Next(counter) + 1) % TWO_64)))
  }

  /** What drawing an address and looking up its account costs. */
  function DrawCost(env: Env, w: World, codeID: uint64): nat {
    CounterPrice(env, w.reg.instanceSeq) + env.accountCost(NewAddress(env, w, codeID))
  }

  lemma TransferNeverFindsAccount(env: Env, w: World, from: bytes, to: bytes, coins: seq<Coin>)
    ensures Transfer(env, w, BankSend(from, to, coins)).out != Err(AccountExists)
  {
    hide Shift, Covers, IsValid, MultiSend;
  }

  lemma InvokeNeverFindsAccount(env: Env, w: World, entry: Entry, codeHash: bytes, self: address, signer: bytes,
                                coins: seq<Coin>, balance: Balances, msg: bytes)
    requires w.meter.Metered?
    ensures Invoke(env, w, entry, codeHash, self, signer, coins, balance, msg).out != Err(AccountExists)
  {
    hide ApplyUpdates, ToWasm, SubStore, GasForContract, ChargeFor;
  }

  lemma SetUpNeverFindsAccount(env: Env, w: World, addr: address, codeID: uint64, creator: bytes, initMsg: bytes, deposit: seq<Coin>)
    requires w.meter.Metered?
    ensures SetUp(env, w, addr, codeID, creator, initMsg, deposit).out != Err(AccountExists)
  {
    hide Transfer, Read, GetAccount, Invoke, Sound;
    TransferNeverFindsAccount(env, w, creator, addr, deposit);
    var p := Transfer(env, w, BankSend(creator, addr, deposit));
    if p.out.Ok? {
      var g := GetAccount(env, p.w, addr);
      LookUpEnds(env, p.w, addr);
      if g.out.Ok? {
        var c := Read(env, g.w, Code(codeID));
        ReadEffect(env, g.w, Code(codeID));
        if c.out.Ok? && c.out.value.Some? && g.out.value.Some? {
          InvokeNeverFindsAccount(env, c.w, OnInit, c.out.value.value.code.hash, addr, creator, deposit, g.out.value.value, initMsg);
        }
      }
    }
  }

  lemma IncrementSpends(env: Env, w: World)
    requires w.meter.Metered?
    ensures var r := AutoIncrementID(env, w, LastInstance);
            && (r.out.Ok? <==> CounterPrice(env, w.reg.instanceSeq) <= GasLeft(w))
            && (r.out.Ok? ==> r.w.meter == Metered(w.meter.limit, w.meter.consumed + CounterPrice(env, w.reg.instanceSeq)) && r.w.meter.consumed <= r.w.meter.limit)
            && (!r.out.Ok? ==> r.out == Panicked(OutOfGas(StoreAccess)))
  {
    hide Put;
    if w.reg.instanceSeq.Some? {
      Uint64RoundTrip(w.reg.instanceSeq.value, []);
    }
  }

  lemma LookUpEnds(env: Env, w: World, a: bytes)
    requires w.meter.Metered?
    ensures var r := GetAccount(env, w, a);
            && (w.meter.consumed <= w.meter.limit ==> (r.out.Ok? <==> env.accountCost(a) <= GasLeft(w)))
            && (!r.out.Ok? ==> r.out == Panicked(OutOfGas(StoreAccess)))
  {
  }

  /** How drawing an address ends: with the next address, or out of gas. */
  lemma DrawEnds(env: Env, w: World, codeID: uint64)
    requires w.meter.Metered?
    ensures var gen := GenerateContractAddress(env, w, codeID);
            var got := GetAccount(env, gen.w, NewAddress(env, w, codeID));
            && (gen.out == Ok(NewAddress(env, w, codeID)) || gen.out == Panicked(OutOfGas(StoreAccess)))
            && (gen.out.Ok? && got.out.Ok? <==> DrawCost(env, w, codeID) <= GasLeft(w))
            && (gen.out.Ok? ==> got.out.Ok? || got.out == Panicked(OutOfGas(StoreAccess)))
            && gen.w == w.(meter := gen.w.meter, reg := w.reg.(instanceSeq := gen.w.reg.instanceSeq), log := gen.w.log)
  {
    hide AddrFromUint64, ContractID, AutoIncrementID, GetAccount, Lookup;
    IncrementSpends(env, w);
    AutoIncrementEffect(env, w, LastInstance);
    var gen := GenerateContractAddress(env, w, codeID);
    if gen.out.Ok? {
      LookUpEnds(env, gen.w, NewAddress(env, w, codeID));
    }
  }

  /** The account check refuses an instantiation if and only if the drawn address has an account
      and there is gas to find that out. */
  lemma AccountCheckFiresIff(env: Env, w: World, codeID: uint64, creator: bytes, initMsg: bytes, deposit: seq<Coin>)
    requires w.meter.Metered?
    ensures InstantiateHead(env, w, codeID, creator, initMsg, deposit).out == Err(AccountExists)
            <==> NewAddress(env, w, codeID) in w.bank && DrawCost(env, w, codeID) <= GasLeft(w)
  {
    hide SetUp, GenerateContractAddress, NewAddress, DrawCost;
    DrawEnds(env, w, codeID);
    var gen := GenerateContractAddress(env, w, codeID);
    if gen.out.Ok? {
      var got := GetAccount(env, gen.w, gen.out.value);
      GetAccountEffect(env, gen.w, gen.out.value);
      if got.out.Ok? && got.out.value.None? {
        SetUpNeverFindsAccount(env, got.w, gen.out.value, codeID, creator, initMsg, deposit);
      }
    }
  }

  /** A taken address ends the instantiation there: with that error, or out of gas before it. No
      entry, coin or code has changed. */
  lemma TakenAddressFails(env: Env, w: World, codeID: uint64, creator: bytes, initMsg: bytes, deposit: seq<Coin>)
    requires w.meter.Metered? && NewAddress(env, w, codeID) in w.bank
    ensures var r := Instantiate(env, w, codeID, creator, initMsg, deposit);
            && r.out == (if DrawCost(env, w, codeID) <= GasLeft(w) then Err(AccountExists) else Panicked(OutOfGas(StoreAccess)))
            && r.w.reg == w.reg.(instanceSeq := r.w.reg.instanceSeq) && r.w.bank == w.bank && r.w.vm == w.vm
  {
    hide SetUp, GenerateContractAddress, NewAddress, DrawCost;
    DrawEnds(env, w, codeID);
    var gen := GenerateContractAddress(env, w, codeID);
    if gen.out.Ok? {
      GetAccountEffect(env, gen.w, gen.out.value);
    }
  }
}
