/** Money over a whole call tree: nothing is minted or burnt, and only those who may spend do. */
module Funds {
  import opened Bytes
  import opened Layout
  import opened Coins
  import opened Bank
  import opened Types
  import opened Engine
  import opened Machine
  import opened Effects

  /** The contracts whose code was run after the first `n` events. */
  function Actors(log: seq<Event>, n: nat): set<bytes> {
    set i | n <= i < |log| && log[i].Ran? :: log[i].contract
  }

  lemma ActorsGrow(log: seq<Event>, m: nat, more: seq<Event>, n: nat)
    requires log <= more && n <= m
    ensures Actors(log, m) <= Actors(more, n)
  {
    forall a | a in Actors(log, m) ensures a in Actors(more, n) {
      var i :| m <= i < |log| && log[i].Ran? && log[i].contract == a;
      assert more[i] == log[i];
    }
  }

  lemma SoundTrans(l: Ledger, m: Ledger, k: Ledger, ps: set<bytes>, qs: set<bytes>, payers: set<bytes>)
    requires Sound(l, m, ps) && Sound(m, k, qs) && ps <= payers && qs <= payers
    ensures Sound(l, k, payers)
  {
    forall a, d | Balance(k, a, d) < Balance(l, a, d) ensures a in payers {
      assert Balance(m, a, d) < Balance(l, a, d) || Balance(k, a, d) < Balance(m, a, d);
    }
  }

  /** Who pays when a task is performed. */
  function Payers(t: Task): set<bytes> {
    match t
    case Call(_, caller, _, _) => {caller}
    case Launch(_, creator, _, _) => {creator}
    case Dispatch(self, _) => {self}
    case Register(_, _) => {}
  }

  /** One step takes only from its payer, and what it pushes is paid by that payer or by
      the contract it has just run. */
  lemma StepIsSound(env: Env, w: World, t: Task)
    requires w.meter.Metered?
    ensures var r := Step(env, w, t);
            && Sound(w.bank, r.w.bank, Payers(t))
            && (r.out.Ok? ==> forall u :: u in r.out.value ==> Payers(u) <= Payers(t) + Actors(r.w.log, |w.log|))
  {
    hide Sound, ExecuteHead, InstantiateHead, SubStore, Put, Encode, GasLeft, Later, Weight;
    SoundRefl(w.bank, Payers(t));
    match t {
      case Call(addr, caller, msg, coins) =>
        ExecuteHeadEffect(env, w, addr, caller, msg, coins);
        var r := ExecuteHead(env, w, addr, caller, msg, coins);
        if r.out.Ok? {
          assert r.w.log[|w.log| + 1] == Ran(addr);
          assert addr in Actors(r.w.log, |w.log|);
        }
      case Launch(codeID, creator, initMsg, deposit) =>
        InstantiateHeadEffect(env, w, codeID, creator, initMsg, deposit);
        var r := InstantiateHead(env, w, codeID, creator, initMsg, deposit);
        if r.out.Ok? {
          assert r.w.log[|w.log| + 1] == Ran(r.out.value.0);
          assert r.out.value.0 in Actors(r.w.log, |w.log|);
        }
      case Register(_, _) =>
      case Dispatch(self, m) =>
        DispatchHasEffect(env, w, self, m);
    }
  }

  /** Over any run, with `spenders` the only outsiders who signed for anything on the stack, coins
      are conserved and taken only from them or from contracts that ran. */
  lemma {:induction false} RunIsSound(env: Env, w: World, ts: seq<Task>, spenders: set<bytes>, n: nat)
    requires w.meter.Metered? && n <= |w.log|
    requires forall t :: t in ts ==> Payers(t) <= spenders + Actors(w.log, n)
    ensures var r := Run(env, w, ts);
            Sound(w.bank, r.w.bank, spenders + Actors(r.w.log, n))
    decreases GasLeft(w), Weight(ts)
  {
    var r := Run(env, w, ts);
    var payers := spenders + Actors(r.w.log, n);
    SoundRefl(w.bank, payers);
    if ts != [] {
      var s := Step(env, w, ts[0]);
      StepIsSound(env, w, ts[0]);
      ActorsGrow(w.log, n, s.w.log, n);
      ActorsGrow(s.w.log, n, r.w.log, n);
      ActorsGrow(s.w.log, |w.log|, s.w.log, n);
      if s.out.Ok? {
        var todo := s.out.value + ts[1..];
        WeightOfConcat(s.out.value, ts[1..]);
        forall t | t in todo ensures Payers(t) <= spenders + Actors(s.w.log, n) {
          assert t in s.out.value || t in ts;
        }
        RunIsSound(env, s.w, todo, spenders, n);
        SoundTrans(w.bank, s.w.bank, r.w.bank, Payers(ts[0]), payers, payers);
      } else {
        SoundTrans(w.bank, s.w.bank, s.w.bank, Payers(ts[0]), {}, payers);
      }
    }
  }

  // ------------------------------------------------------------------ main results

  /** Conservation: whatever the contracts do and however the call ends, every denomination's
      total is unchanged and no balance becomes negative. */
  lemma ExecuteConserves(env: Env, w: World, addr: bytes, caller: bytes, msg: bytes, coins: seq<Coin>, d: Denom)
    requires w.meter.Metered?
    ensures var r := Execute(env, w, addr, caller, msg, coins);
            Total(r.w.bank, d) == Total(w.bank, d) && (NonNegative(w.bank) ==> NonNegative(r.w.bank))
  {
    ExecuteIsRun(env, w, addr, caller, msg, coins);
    RunIsSound(env, w, [Call(addr, caller, msg, coins)], {caller}, |w.log|);
  }

  lemma InstantiateConserves(env: Env, w: World, codeID: uint64, creator: bytes, initMsg: bytes, deposit: seq<Coin>, d: Denom)
    requires w.meter.Metered?
    ensures var r := Instantiate(env, w, codeID, creator, initMsg, deposit);
            Total(r.w.bank, d) == Total(w.bank, d) && (NonNegative(w.bank) ==> NonNegative(r.w.bank))
  {
    InstantiateIsRun(env, w, codeID, creator, initMsg, deposit);
    RunIsSound(env, w, [Launch(codeID, creator, initMsg, deposit)], {creator}, |w.log|);
  }

  /** Spending authority: whoever has less after a call is its caller, or a contract whose code
      ran somewhere in the call tree. */
  lemma ExecuteSpendsOnlyWhatItMay(env: Env, w: World, addr: bytes, caller: bytes, msg: bytes, coins: seq<Coin>, a: bytes, d: Denom)
    requires w.meter.Metered?
    ensures var r := Execute(env, w, addr, caller, msg, coins);
            Balance(r.w.bank, a, d) < Balance(w.bank, a, d) ==> a == caller || a in Actors(r.w.log, |w.log|)
  {
    ExecuteIsRun(env, w, addr, caller, msg, coins);
    RunIsSound(env, w, [Call(addr, caller, msg, coins)], {caller}, |w.log|);
  }

  lemma InstantiateSpendsOnlyWhatItMay(env: Env, w: World, codeID: uint64, creator: bytes, initMsg: bytes, deposit: seq<Coin>, a: bytes, d: Denom)
    requires w.meter.Metered?
    ensures var r := Instantiate(env, w, codeID, creator, initMsg, deposit);
            Balance(r.w.bank, a, d) < Balance(w.bank, a, d) ==> a == creator || a in Actors(r.w.log, |w.log|)
  {
    InstantiateIsRun(env, w, codeID, creator, initMsg, deposit);
    RunIsSound(env, w, [Launch(codeID, creator, initMsg, deposit)], {creator}, |w.log|);
  }
}
