/** The registry over a whole call tree: entries are never lost or overwritten, the invariant of
    stored codes and contracts is kept, a contract's store changes only when it runs, and nothing
    can call a contract that is still being created. */
module Registrations {
  import opened Bytes
  import opened Outcome
  import opened Layout
  import opened Coins
  import opened Bank
  import opened Types
  import opened Engine
  import opened Machine
  import opened Effects
  import opened Funds

  // ------------------------------------------------------------------ invariant

  /** The stored code ids are exactly those handed out. */
  ghost predicate CodesContiguous(reg: Registry) {
    && (forall id: uint64 :: id in reg.codes <==> 1 <= id < Next(reg.codeSeq))
    && (reg.codeSeq.Some? ==> reg.codeSeq.value >= 2)
  }

  /** The virtual machine holds code for every stored hash, and it is code with that hash. */
  ghost predicate CodesHeld(env: Env, w: World) {
    forall id :: id in w.reg.codes ==> HoldsCode(env, w.vm, w.reg.codes[id].hash)
  }

  predicate HoldsCode(env: Env, vm: map<bytes, bytes>, hash: bytes) {
    hash in vm && Compiles(env, vm[hash]) && env.codeHash(vm[hash]) == hash
  }

  /** Code the virtual machine held is still held. */
  ghost predicate StillHolds(env: Env, vm: map<bytes, bytes>, later: map<bytes, bytes>) {
    forall h :: HoldsCode(env, vm, h) ==> HoldsCode(env, later, h)
  }

  /** Every contract has an account and an uploaded code. */
  ghost predicate ContractsBacked(w: World) {
    forall a :: a in w.reg.contracts ==> a in w.bank && w.reg.contracts[a].codeID in w.reg.codes
  }

  ghost predicate Inv(env: Env, w: World) {
    CodesContiguous(w.reg) && CodesHeld(env, w) && ContractsBacked(w)
  }

  /** The gas used from `w` to `v` is not enough to draw code ids until the counter wraps. */
  predicate Room(w: World, v: World) {
    Next(w.reg.codeSeq) + GasLeft(w) - GasLeft(v) < TWO_64
  }

  /** Handing out code ids is paid for in gas. */
  predicate Spends(w: World, v: World) {
    Next(v.reg.codeSeq) + GasLeft(v) <= Next(w.reg.codeSeq) + GasLeft(w)
  }

  /** A contract waiting to be registered has an account and a code, is not registered yet, and is
      not waiting twice. */
  ghost predicate Pending(w: World, ts: seq<Task>) {
    && (forall t :: t in ts && t.Register? ==>
          t.instance in w.bank && t.instance !in w.reg.contracts && t.info.codeID in w.reg.codes)
    && (forall i, j :: 0 <= i < j < |ts| && ts[i].Register? && ts[j].Register? ==> ts[i].instance != ts[j].instance)
  }

  /** Every entry of `reg` is still there, unchanged. */
  ghost predicate Keeps(reg: Registry, later: Registry) {
    && (forall id :: id in reg.codes ==> id in later.codes && later.codes[id] == reg.codes[id])
    && (forall a :: a in reg.contracts ==> a in later.contracts && later.contracts[a] == reg.contracts[a])
  }

  /** Addresses that have an account without being registered stay unregistered, unless `t` is
      the registration that was waiting for them. */
  ghost predicate Reserved(w: World, v: World, t: Task) {
    forall a: address :: a in w.bank && a !in w.reg.contracts && !(t.Register? && t.instance == a)
                         ==> a !in v.reg.contracts
  }

  // ------------------------------------------------------------------ one step

  /** Codes, contracts and held code are as before, and no account is gone. */
  ghost predicate Quiet(w: World, v: World) {
    && v.reg == w.reg.(data := v.reg.data, instanceSeq := v.reg.instanceSeq)
    && v.vm == w.vm
    && w.bank.Keys <= v.bank.Keys
  }

  lemma QuietKeepsInv(env: Env, w: World, v: World)
    requires Inv(env, w) && Quiet(w, v)
    ensures Inv(env, v) && Keeps(w.reg, v.reg)
  {
    hide HoldsCode;
  }

  lemma CallIsQuiet(env: Env, w: World, addr: bytes, caller: bytes, msg: bytes, coins: seq<Coin>)
    requires w.meter.Metered?
    ensures Quiet(w, ExecuteHead(env, w, addr, caller, msg, coins).w)
  {
    hide ExecuteHead, SubStore, Total, Balance, NonNegative, Later;
    ExecuteHeadEffect(env, w, addr, caller, msg, coins);
  }

  lemma LaunchIsQuiet(env: Env, w: World, codeID: uint64, creator: bytes, initMsg: bytes, deposit: seq<Coin>)
    requires w.meter.Metered?
    ensures var r := InstantiateHead(env, w, codeID, creator, initMsg, deposit);
            && Quiet(w, r.w)
            && (r.out.Ok? ==> r.out.value.0 !in w.bank && r.out.value.0 in r.w.bank && codeID in w.reg.codes)
  {
    hide InstantiateHead, SubStore, Total, Balance, NonNegative, NewAddress, Later;
    InstantiateHeadEffect(env, w, codeID, creator, initMsg, deposit);
  }

  lemma RegisterEffect(env: Env, w: World, instance: address, info: ContractInfo)
    requires w.meter.Metered?
    ensures var r := Step(env, w, Register(instance, info));
            Idle(if r.out.Ok? then w.(reg := w.reg.(contracts := w.reg.contracts[instance := info])) else w, r.w)
  {
    hide Encode;
  }

  lemma HoldsAfterStore(env: Env, w: World, code: bytes)
    requires Compiles(env, code)
    ensures var vm := w.vm[env.codeHash(code) := code];
            HoldsCode(env, vm, env.codeHash(code)) && StillHolds(env, w.vm, vm)
  {
  }

  lemma CreatedKeepsInv<T>(env: Env, w: World, r: Res<T>, code: bytes, info: CodeInfo)
    requires Inv(env, w) && Room(w, r.w) && CreatedAs(env, w, r, code, info) && GasLeft(r.w) <= GasLeft(w)
    ensures Keeps(w.reg, r.w.reg) && r.w.reg.contracts == w.reg.contracts && r.w.bank == w.bank
    ensures StillHolds(env, w.vm, r.w.vm)
    ensures r.out.Panicked? || (Inv(env, r.w) && Spends(w, r.w))
  {
    hide HoldsCode, Compiles;
    HoldsAfterStore(env, w, code);
  }

  lemma CreateKeepsInv<T>(env: Env, w: World, r: Res<T>)
    requires Inv(env, w) && Room(w, r.w) && CreateEffect(env, w, r) && GasLeft(r.w) <= GasLeft(w)
    ensures Keeps(w.reg, r.w.reg) && r.w.reg.contracts == w.reg.contracts && r.w.bank == w.bank
    ensures StillHolds(env, w.vm, r.w.vm)
    ensures r.out.Panicked? || (Inv(env, r.w) && Spends(w, r.w))
  {
    hide HoldsCode, Inv, CreatedAs;
    if code, info :| CreatedAs(env, w, r, code, info) {
      CreatedKeepsInv(env, w, r, code, info);
    }
  }

  /** Storing a code keeps the ids contiguous exactly until the counter wraps around: the code
      with id 2^64 - 1 resets it to 0. */
  lemma CreateKeepsContiguousIff(env: Env, w: World, creator: bytes, wasmCode: bytes, source: string, builder: string)
    requires w.meter.Metered? && CodesContiguous(w.reg)
    requires Create(env, w, creator, wasmCode, source, builder).out.Ok?
    ensures CodesContiguous(Create(env, w, creator, wasmCode, source, builder).w.reg) <==> Next(w.reg.codeSeq) + 1 < TWO_64
  {
    hide Create, Compiles;
    CreateHasEffect(env, w, creator, wasmCode, source, builder);
    var reg := Create(env, w, creator, wasmCode, source, builder).w.reg;
    var id := Next(w.reg.codeSeq);
    assert id in reg.codes && reg.codeSeq == Some((id + 1) % TWO_64);
  }

  lemma DispatchKeepsInv(env: Env, w: World, self: address, r: Res<seq<Task>>)
    requires Inv(env, w) && Room(w, r.w) && DispatchEffect(env, w, self, r) && GasLeft(r.w) <= GasLeft(w)
    ensures Keeps(w.reg, r.w.reg) && r.w.reg.contracts == w.reg.contracts && w.bank.Keys <= r.w.bank.Keys
    ensures StillHolds(env, w.vm, r.w.vm)
    ensures r.out.Panicked? || (Inv(env, r.w) && Spends(w, r.w))
  {
    hide CreateEffect, Inv, Total, Balance, NonNegative;
    if Paid(w, r.w, {self}) {
      QuietKeepsInv(env, w, r.w);
    } else {
      CreateKeepsInv(env, w, r);
    }
  }

  /** Every step keeps the invariant, loses no entry and registers only what was waiting for it. */
  lemma StepKeepsInv(env: Env, w: World, t: Task)
    requires w.meter.Metered? && Inv(env, w) && Room(w, Step(env, w, t).w)
    requires t.Register? ==> t.instance in w.bank && t.instance !in w.reg.contracts && t.info.codeID in w.reg.codes
    ensures var r := Step(env, w, t);
            && Keeps(w.reg, r.w.reg)
            && Reserved(w, r.w, t)
            && w.bank.Keys <= r.w.bank.Keys && StillHolds(env, w.vm, r.w.vm)
            && (r.out.Panicked? || (Inv(env, r.w) && Spends(w, r.w)))
  {
    hide ExecuteHead, InstantiateHead, StepSdk, StepSend, Inv, Put, Encode, DispatchEffect, Weight;
    match t {
      case Call(addr, caller, msg, coins) =>
        CallIsQuiet(env, w, addr, caller, msg, coins);
        QuietKeepsInv(env, w, ExecuteHead(env, w, addr, caller, msg, coins).w);
      case Launch(codeID, creator, initMsg, deposit) =>
        LaunchIsQuiet(env, w, codeID, creator, initMsg, deposit);
        QuietKeepsInv(env, w, InstantiateHead(env, w, codeID, creator, initMsg, deposit).w);
      case Register(instance, info) =>
        RegisterEffect(env, w, instance, info);
        RegisterKeepsInv(env, w, instance, info, Step(env, w, t));
      case Dispatch(self, m) =>
        DispatchHasEffect(env, w, self, m);
        DispatchKeepsInv(env, w, self, Step(env, w, t));
    }
  }

  lemma RegisterKeepsInv(env: Env, w: World, instance: address, info: ContractInfo, r: Res<seq<Task>>)
    requires Inv(env, w) && Room(w, r.w) && GasLeft(r.w) <= GasLeft(w)
    requires instance in w.bank && instance !in w.reg.contracts && info.codeID in w.reg.codes
    requires Idle(if r.out.Ok? then w.(reg := w.reg.(contracts := w.reg.contracts[instance := info])) else w, r.w)
    ensures Keeps(w.reg, r.w.reg) && Reserved(w, r.w, Register(instance, info)) && Inv(env, r.w) && Spends(w, r.w)
  {
    hide HoldsCode;
  }

  // ------------------------------------------------------------------ whole runs

  lemma KeepsTrans(a: Registry, b: Registry, c: Registry)
    requires Keeps(a, b) && Keeps(b, c)
    ensures Keeps(a, c)
  {
  }

  /** What waits for registration stays fresh while other tasks run, and a new contract never
      takes an address that is already waiting. */
  lemma StepKeepsPending(env: Env, w: World, t: Task, rest: seq<Task>)
    requires w.meter.Metered? && Inv(env, w) && Room(w, Step(env, w, t).w) && Pending(w, [t] + rest)
    ensures var r := Step(env, w, t);
            r.out.Ok? ==> Pending(r.w, r.out.value + rest)
  {
    hide ExecuteHead, InstantiateHead, StepSdk, StepSend, CodesContiguous, CodesHeld, Put, Encode, Weight, CreateEffect, Paid;
    var r := Step(env, w, t);
    var all := [t] + rest;
    assert t in all && all[0] == t;
    StepKeepsInv(env, w, t);
    forall u | u in rest && u.Register?
      ensures u.instance in r.w.bank && u.instance !in r.w.reg.contracts && u.info.codeID in r.w.reg.codes
    {
      assert u in all;
      var i :| 0 <= i < |rest| && rest[i] == u;
      assert all[i + 1] == u;
    }
    if r.out.Ok? {
      var todo := r.out.value;
      match t {
        case Launch(codeID, creator, initMsg, deposit) =>
          LaunchIsQuiet(env, w, codeID, creator, initMsg, deposit);
          OneRegister(w, todo, rest, all);
        case Dispatch(self, m) =>
          DispatchHasEffect(env, w, self, m);
          NoRegister(todo, rest, all);
        case _ =>
          NoRegister(todo, rest, all);
      }
    }
  }

  lemma NoRegister(todo: seq<Task>, rest: seq<Task>, all: seq<Task>)
    requires forall t :: t in todo ==> !t.Register?
    requires |all| == |rest| + 1 && all[1..] == rest
    requires forall i, j :: 0 <= i < j < |all| && all[i].Register? && all[j].Register? ==> all[i].instance != all[j].instance
    ensures var ts := todo + rest;
            forall i, j :: 0 <= i < j < |ts| && ts[i].Register? && ts[j].Register? ==> ts[i].instance != ts[j].instance
  {
    var ts := todo + rest;
    forall i | 0 <= i < |todo| ensures !ts[i].Register? {
      assert todo[i] in todo;
    }
    forall i | |todo| <= i < |ts| ensures ts[i] == all[i - |todo| + 1] {
    }
  }

  lemma OneRegister(w: World, todo: seq<Task>, rest: seq<Task>, all: seq<Task>)
    requires todo != [] && todo[|todo| - 1].Register? && todo[|todo| - 1].instance !in w.bank
    requires forall t :: t in todo[..|todo| - 1] ==> !t.Register?
    requires forall t :: t in rest && t.Register? ==> t.instance in w.bank
    requires |all| == |rest| + 1 && all[1..] == rest
    requires forall i, j :: 0 <= i < j < |all| && all[i].Register? && all[j].Register? ==> all[i].instance != all[j].instance
    ensures var ts := todo + rest;
            forall i, j :: 0 <= i < j < |ts| && ts[i].Register? && ts[j].Register? ==> ts[i].instance != ts[j].instance
  {
    var ts := todo + rest;
    var dispatches := todo[..|todo| - 1];
    forall i | 0 <= i < |dispatches| ensures !ts[i].Register? {
      assert dispatches[i] in dispatches;
    }
    forall i | |todo| <= i < |ts|
      ensures ts[i] == all[i - |todo| + 1] && (ts[i].Register? ==> ts[i].instance in w.bank)
    {
      assert rest[i - |todo|] in rest;
    }
  }

  /** Over any run: the registry is append-only however it ends, and the invariant holds at the
      end unless a panic (which the caller undoes) cut a step short. */
  lemma {:induction false} RunKeepsInv(env: Env, w: World, ts: seq<Task>)
    requires w.meter.Metered? && Inv(env, w) && Room(w, Run(env, w, ts).w) && Pending(w, ts)
    ensures var r := Run(env, w, ts);
            && Keeps(w.reg, r.w.reg)
            && w.bank.Keys <= r.w.bank.Keys && StillHolds(env, w.vm, r.w.vm)
            && (r.out.Panicked? || (Inv(env, r.w) && Spends(w, r.w)))
    decreases GasLeft(w), Weight(ts)
  {
    hide Step, Inv, CodesHeld, CodesContiguous, ContractsBacked;
    if ts != [] {
      var s := Step(env, w, ts[0]);
      assert ts == [ts[0]] + ts[1..];
      assert ts[0] in ts;
      StepKeepsInv(env, w, ts[0]);
      StepKeepsPending(env, w, ts[0], ts[1..]);
      if s.out.Ok? {
        WeightOfConcat(s.out.value, ts[1..]);
        RunKeepsInv(env, s.w, s.out.value + ts[1..]);
        KeepsTrans(w.reg, s.w.reg, Run(env, w, ts).w.reg);
      }
    }
  }

  lemma StepStillHolds(env: Env, w: World, t: Task)
    requires w.meter.Metered?
    ensures StillHolds(env, w.vm, Step(env, w, t).w.vm)
  {
    hide ExecuteHead, InstantiateHead, StepSdk, StepSend, Put, Encode, Weight, HoldsCode, Sound, Compiles;
    match t {
      case Call(addr, caller, msg, coins) =>
        CallIsQuiet(env, w, addr, caller, msg, coins);
      case Launch(codeID, creator, initMsg, deposit) =>
        LaunchIsQuiet(env, w, codeID, creator, initMsg, deposit);
      case Register(instance, info) =>
        RegisterEffect(env, w, instance, info);
      case Dispatch(self, m) =>
        DispatchHasEffect(env, w, self, m);
        CreateStillHolds(env, w, Step(env, w, t));
    }
  }

  lemma CreateStillHolds<T>(env: Env, w: World, r: Res<T>)
    ensures CreateEffect(env, w, r) ==> StillHolds(env, w.vm, r.w.vm)
  {
    hide HoldsCode, Compiles;
    if code, info :| CreatedAs(env, w, r, code, info) {
      HoldsAfterStore(env, w, code);
    }
  }

  /** No run loses code, whatever the state and however it ends. */
  lemma {:induction false} RunStillHolds(env: Env, w: World, ts: seq<Task>)
    requires w.meter.Metered?
    ensures StillHolds(env, w.vm, Run(env, w, ts).w.vm)
    decreases GasLeft(w), Weight(ts)
  {
    hide Step, HoldsCode;
    if ts != [] {
      var s := Step(env, w, ts[0]);
      StepStillHolds(env, w, ts[0]);
      if s.out.Ok? {
        WeightOfConcat(s.out.value, ts[1..]);
        RunStillHolds(env, s.w, s.out.value + ts[1..]);
      }
    }
  }

  // ------------------------------------------------------------------ each address once

  /** `added` lists, without repetition, exactly the addresses that `later` has beyond `before`. */
  ghost predicate AddsOnce(before: set<address>, later: set<address>, added: seq<address>) {
    && (forall i, j :: 0 <= i < j < |added| ==> added[i] != added[j])
    && (forall a :: a in added ==> a !in before)
    && later == before + (set a | a in added)
  }

  lemma AddsOnceTrans(k0: set<address>, k1: set<address>, k2: set<address>, xs: seq<address>, ys: seq<address>)
    requires AddsOnce(k0, k1, xs) && AddsOnce(k1, k2, ys)
    ensures AddsOnce(k0, k2, xs + ys)
  {
    var all := xs + ys;
    forall i, j | 0 <= i < j < |all| ensures all[i] != all[j] {
      if i < |xs| <= j {
        assert all[i] in xs && all[j] in ys;
      }
    }
  }

  /** The addresses a run registers, in order. */
  function Registers(env: Env, w: World, ts: seq<Task>): seq<address>
    requires w.meter.Metered?
    decreases GasLeft(w), Weight(ts)
  {
    if ts == [] then []
    else
      var s := Step(env, w, ts[0]);
      if !s.out.Ok? then []
      else
        WeightOfConcat(s.out.value, ts[1..]);
        (if ts[0].Register? then [ts[0].instance] else []) + Registers(env, s.w, s.out.value + ts[1..])
  }

  lemma StepRegisters(env: Env, w: World, t: Task)
    requires w.meter.Metered? && (t.Register? ==> t.instance !in w.reg.contracts)
    ensures var r := Step(env, w, t);
            AddsOnce(w.reg.contracts.Keys, r.w.reg.contracts.Keys, if t.Register? && r.out.Ok? then [t.instance] else [])
  {
    hide ExecuteHead, InstantiateHead, StepSdk, StepSend, Put, Encode, Weight, Sound, Compiles;
    match t {
      case Call(addr, caller, msg, coins) =>
        CallIsQuiet(env, w, addr, caller, msg, coins);
      case Launch(codeID, creator, initMsg, deposit) =>
        LaunchIsQuiet(env, w, codeID, creator, initMsg, deposit);
      case Register(instance, info) =>
        RegisterEffect(env, w, instance, info);
      case Dispatch(self, m) =>
        DispatchHasEffect(env, w, self, m);
    }
  }

  /** Over any run, nested instantiations included, no address is registered twice or over an
      earlier contract, and the registered ones are exactly the contracts that are new. */
  lemma {:induction false} RunRegistersOnce(env: Env, w: World, ts: seq<Task>)
    requires w.meter.Metered? && Inv(env, w) && Room(w, Run(env, w, ts).w) && Pending(w, ts)
    ensures AddsOnce(w.reg.contracts.Keys, Run(env, w, ts).w.reg.contracts.Keys, Registers(env, w, ts))
    decreases GasLeft(w), Weight(ts)
  {
    hide Step, Inv, CodesHeld, CodesContiguous, ContractsBacked, AddsOnce;
    if ts == [] {
      AddsNothing(w.reg.contracts.Keys);
    } else {
      var s, rest := Step(env, w, ts[0]), ts[1..];
      assert ts == [ts[0]] + rest;
      assert ts[0] in ts;
      StepKeepsInv(env, w, ts[0]);
      StepKeepsPending(env, w, ts[0], rest);
      StepRegisters(env, w, ts[0]);
      if s.out.Ok? {
        var todo := s.out.value + rest;
        WeightOfConcat(s.out.value, rest);
        RunRegistersOnce(env, s.w, todo);
        AddsOnceTrans(w.reg.contracts.Keys, s.w.reg.contracts.Keys, Run(env, s.w, todo).w.reg.contracts.Keys,
                      if ts[0].Register? then [ts[0].instance] else [], Registers(env, s.w, todo));
      }
    }
  }

  lemma AddsNothing(k: set<address>)
    ensures AddsOnce(k, k, [])
  {
  }

  // ------------------------------------------------------------------ main results

  /** Append-only registry and its invariant, for a call with arbitrary re-entrance. */
  lemma ExecuteKeepsRegistry(env: Env, w: World, addr: bytes, caller: bytes, msg: bytes, coins: seq<Coin>)
    requires w.meter.Metered? && Inv(env, w) && Room(w, Execute(env, w, addr, caller, msg, coins).w)
    ensures var r := Execute(env, w, addr, caller, msg, coins);
            && Keeps(w.reg, r.w.reg) && StillHolds(env, w.vm, r.w.vm)
            && (r.out.Panicked? || Inv(env, r.w))
  {
    hide Inv, Room, Keeps, StillHolds, Execute, Run, Later;
    ExecuteIsRun(env, w, addr, caller, msg, coins);
    RunKeepsInv(env, w, [Call(addr, caller, msg, coins)]);
  }

  /** The same for an instantiation, which registers an address nobody had. */
  lemma InstantiateKeepsRegistry(env: Env, w: World, codeID: uint64, creator: bytes, initMsg: bytes, deposit: seq<Coin>)
    requires w.meter.Metered? && Inv(env, w) && Room(w, Instantiate(env, w, codeID, creator, initMsg, deposit).w)
    ensures var r := Instantiate(env, w, codeID, creator, initMsg, deposit);
            && Keeps(w.reg, r.w.reg) && StillHolds(env, w.vm, r.w.vm)
            && (r.out.Panicked? || Inv(env, r.w))
            && (r.out.Ok? ==>
                  && r.out.value !in w.bank && r.out.value !in w.reg.contracts
                  && r.out.value in r.w.reg.contracts
                  && r.w.reg.contracts[r.out.value] == ContractInfo(codeID, creator, initMsg))
  {
    hide Room, Keeps, StillHolds, InstantiateHead, DispatchMessages, CodesContiguous, CodesHeld, Encode, Later;
    InstantiateIsRun(env, w, codeID, creator, initMsg, deposit);
    RunKeepsInv(env, w, [Launch(codeID, creator, initMsg, deposit)]);
    LaunchIsQuiet(env, w, codeID, creator, initMsg, deposit);
  }

  // ------------------------------------------------------------------ isolation of stores

  /** A world whose history gained a run of exactly the contract whose store changed. */
  ghost predicate Isolates(w: World, v: World, a: address) {
    SubStore(v.reg, a) != SubStore(w.reg, a) ==> a in Actors(v.log, |w.log|)
  }

  lemma RanIsActor(w: World, v: World, self: address)
    requires |w.log| + 1 < |v.log| && v.log[|w.log| + 1] == Ran(self)
    ensures self in Actors(v.log, |w.log|)
  {
  }

  lemma CallIsolates(env: Env, w: World, addr: bytes, caller: bytes, msg: bytes, coins: seq<Coin>, a: address)
    requires w.meter.Metered?
    ensures Isolates(w, ExecuteHead(env, w, addr, caller, msg, coins).w, a)
  {
    hide ExecuteHead, Later, Sound, Actors, GasLeft;
    ExecuteHeadEffect(env, w, addr, caller, msg, coins);
    var v := ExecuteHead(env, w, addr, caller, msg, coins).w;
    if SubStore(v.reg, a) != SubStore(w.reg, a) {
      RanIsActor(w, v, a);
    }
  }

  lemma LaunchIsolates(env: Env, w: World, codeID: uint64, creator: bytes, initMsg: bytes, deposit: seq<Coin>, a: address)
    requires w.meter.Metered?
    ensures Isolates(w, InstantiateHead(env, w, codeID, creator, initMsg, deposit).w, a)
  {
    hide InstantiateHead, Later, Sound, Actors, NewAddress;
    InstantiateHeadEffect(env, w, codeID, creator, initMsg, deposit);
    var v := InstantiateHead(env, w, codeID, creator, initMsg, deposit).w;
    if SubStore(v.reg, a) != SubStore(w.reg, a) {
      RanIsActor(w, v, a);
    }
  }

  lemma StepIsolates(env: Env, w: World, t: Task, a: address)
    requires w.meter.Metered?
    ensures Isolates(w, Step(env, w, t).w, a)
  {
    hide ExecuteHead, InstantiateHead, StepSdk, StepSend, Encode, Weight, GasLeft, Sound, Actors, Compiles, Later;
    match t {
      case Call(addr, caller, msg, coins) =>
        CallIsolates(env, w, addr, caller, msg, coins, a);
      case Launch(codeID, creator, initMsg, deposit) =>
        LaunchIsolates(env, w, codeID, creator, initMsg, deposit, a);
      case Register(_, _) =>
      case Dispatch(self, m) =>
        DispatchHasEffect(env, w, self, m);
    }
  }

  lemma {:induction false} RunIsolates(env: Env, w: World, ts: seq<Task>, a: address)
    requires w.meter.Metered?
    ensures var r := Run(env, w, ts);
            Isolates(w, r.w, a)
    decreases GasLeft(w), Weight(ts)
  {
    hide Step, SubStore, Actors;
    if ts != [] {
      var s := Step(env, w, ts[0]);
      StepIsolates(env, w, ts[0], a);
      var r := Run(env, w, ts);
      if s.out.Ok? {
        WeightOfConcat(s.out.value, ts[1..]);
        RunIsolates(env, s.w, s.out.value + ts[1..], a);
        ActorsGrow(r.w.log, |s.w.log|, r.w.log, |w.log|);
        ActorsGrow(s.w.log, |w.log|, r.w.log, |w.log|);
      }
    }
  }

  /** Whatever ran in a call tree, a contract's store is as before unless its own code ran. */
  lemma ExecuteIsolatesStores(env: Env, w: World, addr: bytes, caller: bytes, msg: bytes, coins: seq<Coin>, a: address)
    requires w.meter.Metered?
    ensures var r := Execute(env, w, addr, caller, msg, coins);
            SubStore(r.w.reg, a) != SubStore(w.reg, a) ==> a in Actors(r.w.log, |w.log|)
  {
    ExecuteIsRun(env, w, addr, caller, msg, coins);
    RunIsolates(env, w, [Call(addr, caller, msg, coins)], a);
  }

  lemma InstantiateIsolatesStores(env: Env, w: World, codeID: uint64, creator: bytes, initMsg: bytes, deposit: seq<Coin>, a: address)
    requires w.meter.Metered?
    ensures var r := Instantiate(env, w, codeID, creator, initMsg, deposit);
            SubStore(r.w.reg, a) != SubStore(w.reg, a) ==> a in Actors(r.w.log, |w.log|)
  {
    InstantiateIsRun(env, w, codeID, creator, initMsg, deposit);
    RunIsolates(env, w, [Launch(codeID, creator, initMsg, deposit)], a);
  }
}
