/** Who is recorded as the creator of a code: over a whole call tree only a contract whose code ran
    in it, and that contract itself. */
module Uploads {
  import opened Bytes
  import opened Layout
  import opened Coins
  import opened Bank
  import opened Types
  import opened Engine
  import opened Machine
  import opened Effects
  import opened Funds
  import opened Registrations
  import opened Answers

  /** Every code entry that is new or changed names one of these as its creator. */
  ghost predicate UploadedBy(w: World, v: World, creators: set<bytes>) {
    forall id: uint64 :: id in v.reg.codes && !(id in w.reg.codes && w.reg.codes[id] == v.reg.codes[id])
                         ==> v.reg.codes[id].creator in creators
  }

  lemma UploadedByTrans(w: World, v: World, u: World, some: set<bytes>, others: set<bytes>, creators: set<bytes>)
    requires UploadedBy(w, v, some) && UploadedBy(v, u, others) && some <= creators && others <= creators
    ensures UploadedBy(w, u, creators)
  {
  }

  lemma CreateUploads(env: Env, w: World, creator: bytes, upload: bytes, source: string, builder: string)
    requires w.meter.Metered?
    ensures UploadedBy(w, Create(env, w, creator, upload, source, builder).w, {creator})
  {
    hide Create, Contains, IsWasm, Encode;
    CreateFailsIff(env, w, creator, upload, source, builder);
    if code :| Contains(env, upload, code) && IsWasm(env, code) {
      CreateEnds(env, w, creator, upload, source, builder, code);
      OutOfGasStoresNothing(env, w, creator, upload, source, builder);
    }
  }

  lemma OutOfGasStoresNothing(env: Env, w: World, creator: bytes, upload: bytes, source: string, builder: string)
    requires w.meter.Metered?
    ensures var r := Create(env, w, creator, upload, source, builder);
            !r.out.Ok? ==> r.w.reg.codes == w.reg.codes
  {
    hide Create, Compiles;
    CreateHasEffect(env, w, creator, upload, source, builder);
  }

  lemma SdkUploads(env: Env, w: World, self: address, m: SdkMsg)
    requires w.meter.Metered?
    ensures UploadedBy(w, StepSdk(env, w, self, m).w, {self})
  {
    hide Create, Transfer, Authorised, Sound, Weight;
    AuthorisedIff(self, m);
    match m {
      case StoreCode(sender, upload, source, builder) =>
        CreateUploads(env, w, sender, upload, source, builder);
      case BankSend(_, _, _) =>
        TransferEffect(env, w, m);
      case BankMultiSend(_, _) =>
        TransferEffect(env, w, m);
      case _ =>
    }
  }

  lemma DispatchUploads(env: Env, w: World, self: address, m: CosmosMsg)
    requires w.meter.Metered?
    ensures UploadedBy(w, Step(env, w, Dispatch(self, m)).w, {self})
  {
    hide StepSdk, StepSend, Sound, Weight;
    if m.send.Some? {
      StepSendEffect(env, w, self, m.send.value.from, m.send.value.to, m.send.value.amount);
    } else if m.contract.Some? {
      StepSendEffect(env, w, self, Parsed(self), m.contract.value.contractAddr, m.contract.value.send);
    } else if m.opaque_.Some? && m.opaque_.value.Some? {
      SdkUploads(env, w, self, m.opaque_.value.value);
    }
  }

  /** The contract that dispatches, in a dispatch. */
  function Dispatcher(t: Task): set<bytes> {
    if t.Dispatch? then {t.self} else {}
  }

  /** Only a dispatch stores code, in the name of its contract, and only a contract that has just
      run schedules one. */
  lemma StepUploads(env: Env, w: World, t: Task)
    requires w.meter.Metered?
    ensures var r := Step(env, w, t);
            && UploadedBy(w, r.w, Dispatcher(t))
            && (r.out.Ok? ==> forall u :: u in r.out.value ==> Dispatcher(u) <= Actors(r.w.log, |w.log|))
  {
    hide Sound, ExecuteHead, InstantiateHead, StepSdk, StepSend, SubStore, Put, Encode, GasLeft, Later, Weight, Actors, UploadedBy;
    var r := Step(env, w, t);
    match t {
      case Call(addr, caller, msg, coins) =>
        CallIsQuiet(env, w, addr, caller, msg, coins);
        SameCodes(w, r.w);
        CallRuns(env, w, addr, caller, msg, coins);
      case Launch(codeID, creator, initMsg, deposit) =>
        LaunchIsQuiet(env, w, codeID, creator, initMsg, deposit);
        SameCodes(w, r.w);
        LaunchRuns(env, w, codeID, creator, initMsg, deposit);
      case Register(instance, info) =>
        RegisterEffect(env, w, instance, info);
        SameCodes(w, r.w);
      case Dispatch(self, m) =>
        DispatchUploads(env, w, self, m);
        DispatchHasEffect(env, w, self, m);
    }
  }

  lemma SameCodes(w: World, v: World)
    ensures v.reg.codes == w.reg.codes ==> UploadedBy(w, v, {})
  {
  }

  lemma CallRuns(env: Env, w: World, addr: bytes, caller: bytes, msg: bytes, coins: seq<Coin>)
    requires w.meter.Metered?
    ensures var r := ExecuteHead(env, w, addr, caller, msg, coins);
            r.out.Ok? ==> addr in Actors(r.w.log, |w.log|)
  {
    hide ExecuteHead, Sound, SubStore, GasLeft, Later;
    ExecuteHeadEffect(env, w, addr, caller, msg, coins);
    var r := ExecuteHead(env, w, addr, caller, msg, coins);
    if r.out.Ok? {
      assert r.w.log[|w.log| + 1] == Ran(addr);
    }
  }

  lemma LaunchRuns(env: Env, w: World, codeID: uint64, creator: bytes, initMsg: bytes, deposit: seq<Coin>)
    requires w.meter.Metered?
    ensures var r := InstantiateHead(env, w, codeID, creator, initMsg, deposit);
            r.out.Ok? ==> r.out.value.0 in Actors(r.w.log, |w.log|)
  {
    hide InstantiateHead, Sound, SubStore, GasLeft, Later, NewAddress;
    InstantiateHeadEffect(env, w, codeID, creator, initMsg, deposit);
    var r := InstantiateHead(env, w, codeID, creator, initMsg, deposit);
    if r.out.Ok? {
      assert r.w.log[|w.log| + 1] == Ran(r.out.value.0);
    }
  }

  lemma {:induction false} RunUploads(env: Env, w: World, ts: seq<Task>, others: set<bytes>, n: nat)
    requires w.meter.Metered? && n <= |w.log|
    requires forall t :: t in ts ==> Dispatcher(t) <= others + Actors(w.log, n)
    ensures var r := Run(env, w, ts);
            UploadedBy(w, r.w, others + Actors(r.w.log, n))
    decreases GasLeft(w), Weight(ts)
  {
    hide UploadedBy, Step;
    var r := Run(env, w, ts);
    var creators := others + Actors(r.w.log, n);
    if ts == [] {
      SameCodes(w, w);
      UploadedByTrans(w, w, w, {}, {}, creators);
    } else {
      var s := Step(env, w, ts[0]);
      StepUploads(env, w, ts[0]);
      assert ts[0] in ts;
      ActorsGrow(w.log, n, s.w.log, n);
      ActorsGrow(s.w.log, n, r.w.log, n);
      ActorsGrow(s.w.log, |w.log|, s.w.log, n);
      if s.out.Ok? {
        var todo := s.out.value + ts[1..];
        WeightOfConcat(s.out.value, ts[1..]);
        forall t | t in todo ensures Dispatcher(t) <= others + Actors(s.w.log, n) {
          assert t in s.out.value || t in ts;
        }
        RunUploads(env, s.w, todo, others, n);
        UploadedByTrans(w, s.w, r.w, Dispatcher(ts[0]), creators, creators);
      } else {
        SameCodes(s.w, s.w);
        UploadedByTrans(w, s.w, s.w, Dispatcher(ts[0]), {}, creators);
      }
    }
  }

  /** Whatever a call tree stores is recorded as created by a contract that ran in it: nobody can
      upload in another's name. */
  lemma ExecuteUploadsOwn(env: Env, w: World, addr: bytes, caller: bytes, msg: bytes, coins: seq<Coin>)
    requires w.meter.Metered?
    ensures var r := Execute(env, w, addr, caller, msg, coins);
            UploadedBy(w, r.w, Actors(r.w.log, |w.log|))
  {
    hide Execute, Run, Actors, UploadedBy;
    ExecuteIsRun(env, w, addr, caller, msg, coins);
    RunUploads(env, w, [Call(addr, caller, msg, coins)], {}, |w.log|);
    assert {} + Actors(Execute(env, w, addr, caller, msg, coins).w.log, |w.log|) == Actors(Execute(env, w, addr, caller, msg, coins).w.log, |w.log|);
  }

  lemma InstantiateUploadsOwn(env: Env, w: World, codeID: uint64, creator: bytes, initMsg: bytes, deposit: seq<Coin>)
    requires w.meter.Metered?
    ensures var r := Instantiate(env, w, codeID, creator, initMsg, deposit);
            UploadedBy(w, r.w, Actors(r.w.log, |w.log|))
  {
    hide Instantiate, Run, Actors, UploadedBy;
    InstantiateIsRun(env, w, codeID, creator, initMsg, deposit);
    RunUploads(env, w, [Launch(codeID, creator, initMsg, deposit)], {}, |w.log|);
    var log := Instantiate(env, w, codeID, creator, initMsg, deposit).w.log;
    assert {} + Actors(log, |w.log|) == Actors(log, |w.log|);
  }
}
