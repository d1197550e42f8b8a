/** What one machine step can do to the world, stated without the order of its charges. Every
    whole-run theorem uses these descriptions instead of the operations' bodies. */
module Effects {
  import opened Bytes
  import opened Outcome
  import opened Layout
  import opened Coins
  import opened Bank
  import opened Gas
  import opened Types
  import opened Engine
  import opened Machine

  /** Only gas was spent. */
  ghost predicate Idle(w: World, v: World) {
    v == w.(meter := v.meter)
  }

  /** Only coins moved, taken from `payers`. */
  ghost predicate Paid(w: World, v: World, payers: set<bytes>) {
    v == w.(meter := v.meter, bank := v.bank) && Sound(w.bank, v.bank, payers)
  }

  /** A bill is for the gas the contract reported on the input it was given, at one unit for 100. */
  ghost predicate FairBill(env: Env, e: Event)
    requires e.Billed?
  {
    && env.run(e.input).result.Some? && e.used == env.run(e.input).result.value.gasUsed
    && 100 * e.charged <= e.used < 100 * e.charged + 100
  }

  /** The code of `self` ran: only its own store changed. A finished run was billed. */
  ghost predicate Invoked(env: Env, w: World, v: World, self: address, finished: bool) {
    && v == w.(meter := v.meter, reg := w.reg.(data := v.reg.data), log := v.log)
    && (forall a: address :: a != self ==> SubStore(v.reg, a) == SubStore(w.reg, a))
    && |w.log| + 1 <= |v.log| <= |w.log| + 2
    && v.log[..|w.log| + 1] == w.log + [Ran(self)]
    && (|v.log| == |w.log| + 2 ==>
          var e := v.log[|w.log| + 1];
          && e.Billed? && FairBill(env, e)
          && e.input.contract == self && e.input.store == SubStore(w.reg, self)
          && (w.meter.Metered? && v.meter.Metered? ==> v.meter.consumed >= w.meter.consumed + e.charged))
    && (finished ==> |v.log| == |w.log| + 2)
  }

  /** `w` after its instance counter handed out an id. */
  function Drawn(w: World, codeID: uint64): World {
    var id := Next(w.reg.instanceSeq);
    Log(w.(reg := w.reg.(instanceSeq := Some((id + 1) % TWO_64))), Generated(codeID, id))
  }

  function NewAddress(env: Env, w: World, codeID: uint64): address {
    AddrFromUint64(env, ContractID(codeID, Next(w.reg.instanceSeq)))
  }

  ghost predicate CallEffect(env: Env, w: World, addr: bytes, caller: bytes, r: Res<RunResult>) {
    var w0 := Log(w, Called(addr));
    || (Idle(w0, r.w) && !r.out.Ok?)
    || (&& |addr| == 20 && addr in w.reg.contracts && GasLeft(r.w) < GasLeft(w)
        && Sound(w.bank, r.w.bank, {caller}) && addr in r.w.bank
        && var w1 := w0.(bank := r.w.bank);
           (Idle(w1, r.w) && !r.out.Ok?) || Invoked(env, w1, r.w, addr, r.out.Ok?))
  }

  ghost predicate LaunchEffect(env: Env, w: World, codeID: uint64, creator: bytes, r: Res<(address, RunResult)>) {
    var w0 := Drawn(w, codeID);
    var addr := NewAddress(env, w, codeID);
    && (r.out.Ok? ==> r.out.value.0 == addr)
    && (|| (Idle(w, r.w) && !r.out.Ok?)
        || (&& GasLeft(r.w) < GasLeft(w)
            && (|| (Idle(w0, r.w) && !r.out.Ok?)
                || (&& addr !in w.bank
                    && Sound(w.bank, r.w.bank, {creator}) && addr in r.w.bank
                    && var w1 := w0.(bank := r.w.bank);
                       || (Idle(w1, r.w) && !r.out.Ok?)
                       || (codeID in w.reg.codes && Invoked(env, w1, r.w, addr, r.out.Ok?))))))
  }

  /** `code` was accepted under `info`; it may have been stored, its id drawn, its entry written. */
  ghost predicate CreatedAs<T>(env: Env, w: World, r: Res<T>, code: bytes, info: CodeInfo) {
    var id := Next(w.reg.codeSeq);
    var w0 := w.(vm := w.vm[info.hash := code]);
    var w1 := w0.(reg := w0.reg.(codeSeq := Some((id + 1) % TWO_64)));
    && Compiles(env, code) && info.hash == env.codeHash(code)
    && (|| (Idle(w0, r.w) && r.out.Panicked?)
        || (GasLeft(r.w) < GasLeft(w) && Idle(w1, r.w) && r.out.Panicked?)
        || (GasLeft(r.w) < GasLeft(w) && Idle(w1.(reg := w1.reg.(codes := w1.reg.codes[id := info])), r.w) && r.out.Ok?))
  }

  ghost predicate CreateEffect<T>(env: Env, w: World, r: Res<T>) {
    || (r.w == w && !r.out.Ok?)
    || (exists code, info :: CreatedAs(env, w, r, code, info))
  }

  /** A dispatched message moves the contract's own coins, or stores code, or schedules a call
      the contract itself makes. */
  ghost predicate DispatchEffect(env: Env, w: World, self: address, r: Res<seq<Task>>) {
    && (Paid(w, r.w, {self}) || CreateEffect(env, w, r))
    && (r.out.Ok? ==>
          && |r.out.value| <= 1
          && forall t :: t in r.out.value ==> (t.Call? && t.caller == self) || (t.Launch? && t.creator == self))
  }

  // ------------------------------------------------------------------ the operations have them

  lemma ReadEffect(env: Env, w: World, s: Slot)
    ensures var r := Read(env, w, s);
            Idle(w, r.w) && if r.out.Ok? then r.out.value == Lookup(w.reg, s) else r.out.Panicked?
  {
    hide Lookup, Encode;
  }

  lemma GetAccountEffect(env: Env, w: World, a: bytes)
    ensures var r := GetAccount(env, w, a);
            Idle(w, r.w) && (r.out.Ok? ==> (r.out.value.Some? <==> a in w.bank))
  {
  }

  function Signers(m: SdkMsg): set<bytes> {
    set a | a in GetSigners(m)
  }

  lemma SoundRefl(l: Ledger, payers: set<bytes>)
    ensures Sound(l, l, payers)
  {
  }

  lemma SoundMono(l: Ledger, m: Ledger, ps: set<bytes>, qs: set<bytes>)
    requires Sound(l, m, ps) && ps <= qs
    ensures Sound(l, m, qs)
  {
  }

  lemma SettleIsSound(env: Env, l: Ledger, m: SdkMsg)
    requires m.BankSend? || m.BankMultiSend?
    requires Settle(env, l, m).Ok?
    ensures Sound(l, Settle(env, l, m).value, Signers(m))
    ensures m.BankSend? ==> m.to in Settle(env, l, m).value
  {
    hide Sound, Send, MultiSend;
    match m {
      case BankSend(from, to, amount) =>
        SendIsSound(env.denomOk, l, from, to, amount);
        assert from in GetSigners(m);
        assert Signers(m) == {from};
      case BankMultiSend(ins, outs) =>
        MultiSendIsSound(env.denomOk, l, ins, outs);
        forall a | a in Addrs(ins) ensures a in Signers(m) {
          var i :| 0 <= i < |ins| && ins[i].addr == a;
          assert GetSigners(m)[i] == a;
        }
        var taken := Settle(env, l, m).value;
        SoundMono(l, taken, Addrs(ins), Signers(m));
    }
  }

  lemma TransferEffect(env: Env, w: World, m: SdkMsg)
    requires m.BankSend? || m.BankMultiSend?
    ensures var r := Transfer(env, w, m);
            Paid(w, r.w, Signers(m)) && (r.out.Ok? ==> (m.BankSend? ==> m.to in r.w.bank)) && (!r.out.Ok? ==> Idle(w, r.w))
  {
    hide Sound, Settle, Signers;
    SoundRefl(w.bank, Signers(m));
    if Settle(env, w.bank, m).Ok? {
      SettleIsSound(env, w.bank, m);
    }
  }

  lemma SendEffect(env: Env, w: World, from: bytes, to: bytes, coins: seq<Coin>)
    ensures var r := Transfer(env, w, BankSend(from, to, coins));
            Paid(w, r.w, {from}) && (r.out.Ok? ==> to in r.w.bank) && (!r.out.Ok? ==> Idle(w, r.w))
  {
    hide Sound, Transfer;
    var m := BankSend(from, to, coins);
    TransferEffect(env, w, m);
    assert Signers(m) == {from};
  }

  lemma WriteEffect(env: Env, w: World, s: Slot, value: Value)
    requires Fits(s, value)
    ensures var r := Write(env, w, s, value);
            if r.out.Ok? then Idle(w.(reg := Put(w.reg, s, value)), r.w) else Idle(w, r.w) && r.out.Panicked?
  {
    hide Put, Encode;
  }

  function CounterAt(reg: Registry, s: Slot): Option<uint64>
    requires s.LastCode? || s.LastInstance?
  {
    if s.LastCode? then reg.codeSeq else reg.instanceSeq
  }

  lemma CounterRead(reg: Registry, s: Slot)
    requires s.LastCode? || s.LastInstance?
    ensures var v := Lookup(reg, s);
            Next(CounterAt(reg, s)) == if v.Some? then BigEndianToUint64(v.value.raw) else 1
  {
    var counter := CounterAt(reg, s);
    if counter.Some? {
      Uint64RoundTrip(counter.value, []);
    }
  }

  lemma CounterWritten(reg: Registry, s: Slot, id: uint64)
    requires s.LastCode? || s.LastInstance?
    ensures Put(reg, s, Counter(Uint64ToBigEndian(id)))
            == if s.LastCode? then reg.(codeSeq := Some(id)) else reg.(instanceSeq := Some(id))
  {
    Uint64RoundTrip(id, []);
  }

  lemma AutoIncrementEffect(env: Env, w: World, s: Slot)
    requires s.LastCode? || s.LastInstance?
    ensures var r := AutoIncrementID(env, w, s);
            var id := Next(CounterAt(w.reg, s));
            var bumped: Option<uint64> := Some((id + 1) % TWO_64);
            var reg := if s.LastCode? then w.reg.(codeSeq := bumped) else w.reg.(instanceSeq := bumped);
            if r.out.Ok? then r.out.value == id && Idle(w.(reg := reg), r.w) else Idle(w, r.w) && r.out.Panicked?
  {
    hide Read, Write, Encode, Put, Lookup, BigEndianToUint64, CounterAt;
    var id := Next(CounterAt(w.reg, s));
    var r := Read(env, w, s);
    ReadEffect(env, w, s);
    CounterRead(w.reg, s);
    if r.out.Ok? {
      var next: uint64 := (id + 1) % TWO_64;
      WriteEffect(env, r.w, s, Counter(Uint64ToBigEndian(next)));
      CounterWritten(w.reg, s, next);
    }
  }

  /** What an invocation leaves in the store: the contract's writes, whatever the outcome. */
  lemma InvokeWrites(env: Env, w: World, entry: Entry, codeHash: bytes, self: address, signer: bytes,
                     coins: seq<Coin>, balance: Balances, msg: bytes) returns (m: map<bytes, bytes>)
    requires w.meter.Metered?
    ensures var v := Invoke(env, w, entry, codeHash, self, signer, coins, balance, msg).w;
            v == w.(meter := v.meter, reg := w.reg.(data := w.reg.data[self := m]), log := v.log)
  {
    hide ApplyUpdates, GasForContract, ToWasm, ChargeFor, SubStore, GasLeft;
    var inp := RunInput(entry, codeHash, signer, ToWasm(coins), self, balance, msg, SubStore(w.reg, self),
                        GasForContract(w.meter.limit, w.meter.consumed));
    m := ApplyUpdates(inp.store, env.run(inp).updates);
  }

  /** What an invocation adds to the history. */
  lemma InvokeLogs(env: Env, w: World, entry: Entry, codeHash: bytes, self: address, signer: bytes,
                   coins: seq<Coin>, balance: Balances, msg: bytes)
    requires w.meter.Metered?
    ensures var r := Invoke(env, w, entry, codeHash, self, signer, coins, balance, msg);
            || (!r.out.Ok? && r.w.log == w.log + [Ran(self)])
            || (&& |r.w.log| == |w.log| + 2 && r.w.log[..|w.log| + 1] == w.log + [Ran(self)]
                && var e := r.w.log[|w.log| + 1];
                   && e.Billed? && FairBill(env, e)
                   && e.input.contract == self && e.input.store == SubStore(w.reg, self)
                   && r.w.meter.Metered? && r.w.meter.consumed >= w.meter.consumed + e.charged)
  {
    hide ApplyUpdates, GasForContract, ToWasm, SubStore;
  }

  lemma InvokeEffect(env: Env, w: World, entry: Entry, codeHash: bytes, self: address, signer: bytes,
                     coins: seq<Coin>, balance: Balances, msg: bytes)
    requires w.meter.Metered?
    ensures var r := Invoke(env, w, entry, codeHash, self, signer, coins, balance, msg);
            Invoked(env, w, r.w, self, r.out.Ok?)
  {
    hide Invoke, ChargeFor, SubStore, Later, GasLeft;
    var m := InvokeWrites(env, w, entry, codeHash, self, signer, coins, balance, msg);
    InvokeLogs(env, w, entry, codeHash, self, signer, coins, balance, msg);
    DataFrame(w.reg, self, m);
  }

  lemma ContractInstanceEffect(env: Env, w: World, addr: bytes)
    ensures Idle(w, ContractInstance(env, w, addr).w)
  {
    hide Encode;
  }

  lemma ExecuteHeadEffect(env: Env, w: World, addr: bytes, caller: bytes, msg: bytes, coins: seq<Coin>)
    requires w.meter.Metered?
    ensures CallEffect(env, w, addr, caller, ExecuteHead(env, w, addr, caller, msg, coins))
  {
    hide Sound, Transfer, ContractInstance, GetAccount, Invoke, Invoked, SubStore;
    var w0 := Log(w, Called(addr));
    var i := ContractInstance(env, w0, addr);
    ContractInstanceEffect(env, w0, addr);
    if i.out.Ok? {
      var p := Transfer(env, i.w, BankSend(caller, addr, coins));
      SendEffect(env, i.w, caller, addr, coins);
      if p.out.Ok? {
        var g := GetAccount(env, p.w, addr);
        GetAccountEffect(env, p.w, addr);
        if g.out.Ok? && g.out.value.Some? {
          InvokeEffect(env, g.w, OnHandle, i.out.value.hash, addr, caller, coins, g.out.value.value, msg);
          var v := Invoke(env, g.w, OnHandle, i.out.value.hash, addr, caller, coins, g.out.value.value, msg);
          InvokedAfterIdle(env, w0.(bank := p.w.bank), g.w, v.w, addr, v.out.Ok?);
        }
      }
    }
  }

  lemma InvokedAfterIdle(env: Env, w: World, v: World, u: World, self: address, finished: bool)
    requires Idle(w, v) && Later(w, v) && Invoked(env, v, u, self, finished)
    ensures Invoked(env, w, u, self, finished)
  {
  }

  lemma SetUpEffect(env: Env, w: World, addr: address, codeID: uint64, creator: bytes, initMsg: bytes, deposit: seq<Coin>)
    requires w.meter.Metered?
    ensures var r := SetUp(env, w, addr, codeID, creator, initMsg, deposit);
            || (Idle(w, r.w) && !r.out.Ok?)
            || (&& Sound(w.bank, r.w.bank, {creator}) && addr in r.w.bank
                && var w1 := w.(bank := r.w.bank);
                   || (Idle(w1, r.w) && !r.out.Ok?)
                   || (codeID in w.reg.codes && Invoked(env, w1, r.w, addr, r.out.Ok?)))
  {
    hide Sound, Transfer, GetAccount, Read, Invoke, Invoked, SubStore, GasLeft;
    var p := Transfer(env, w, BankSend(creator, addr, deposit));
    SendEffect(env, w, creator, addr, deposit);
    if p.out.Ok? {
      var g := GetAccount(env, p.w, addr);
      GetAccountEffect(env, p.w, addr);
      if g.out.Ok? {
        var c := Read(env, g.w, Code(codeID));
        ReadEffect(env, g.w, Code(codeID));
        if c.out.Ok? && c.out.value.Some? && g.out.value.Some? {
          var hash := c.out.value.value.code.hash;
          InvokeEffect(env, c.w, OnInit, hash, addr, creator, deposit, g.out.value.value, initMsg);
          var v := Invoke(env, c.w, OnInit, hash, addr, creator, deposit, g.out.value.value, initMsg);
          InvokedAfterIdle(env, w.(bank := p.w.bank), c.w, v.w, addr, v.out.Ok?);
        }
      }
    }
  }

  lemma InstantiateHeadEffect(env: Env, w: World, codeID: uint64, creator: bytes, initMsg: bytes, deposit: seq<Coin>)
    requires w.meter.Metered?
    ensures LaunchEffect(env, w, codeID, creator, InstantiateHead(env, w, codeID, creator, initMsg, deposit))
  {
    hide Sound, SetUp, GetAccount, AutoIncrementID, Invoked, AddrFromUint64, ContractID;
    AutoIncrementEffect(env, w, LastInstance);
    var gen := GenerateContractAddress(env, w, codeID);
    if gen.out.Ok? {
      var addr := gen.out.value;
      assert addr == NewAddress(env, w, codeID) && Idle(Drawn(w, codeID), gen.w);
      var got := GetAccount(env, gen.w, addr);
      GetAccountEffect(env, gen.w, addr);
      if got.out.Ok? && got.out.value.None? {
        SetUpEffect(env, got.w, addr, codeID, creator, initMsg, deposit);
        var v := SetUp(env, got.w, addr, codeID, creator, initMsg, deposit);
        var w1 := got.w.(bank := v.w.bank);
        if Invoked(env, w1, v.w, addr, v.out.Ok?) {
          InvokedAfterIdle(env, Drawn(w, codeID).(bank := v.w.bank), w1, v.w, addr, v.out.Ok?);
        }
      }
    }
  }

  lemma CreateHasEffect(env: Env, w: World, creator: bytes, wasmCode: bytes, source: string, builder: string)
    requires w.meter.Metered?
    ensures CreateEffect(env, w, Create(env, w, creator, wasmCode, source, builder))
  {
    hide AutoIncrementID, Encode, Uncompress, Compiles;
    var code := Uncompress(env, wasmCode);
    if code.Some? && Compiles(env, code.value) {
      var info := CodeInfo(env.codeHash(code.value), creator, source, builder);
      AutoIncrementEffect(env, w.(vm := w.vm[info.hash := code.value]), LastCode);
      assert CreatedAs(env, w, Create(env, w, creator, wasmCode, source, builder), code.value, info);
    }
  }

  lemma StepSdkEffect(env: Env, w: World, self: address, m: SdkMsg)
    requires w.meter.Metered?
    ensures DispatchEffect(env, w, self, StepSdk(env, w, self, m))
  {
    hide Sound, Create, Transfer, Weight;
    SoundRefl(w.bank, {self});
    if Authorised(self, m) {
      match m {
        case StoreCode(sender, code, source, builder) =>
          if env.storeCodeOk(m) {
            var c := Create(env, w, sender, code, source, builder);
            CreateHasEffect(env, w, sender, code, source, builder);
            if code, info :| CreatedAs(env, w, c, code, info) {
              assert CreatedAs(env, w, StepSdk(env, w, self, m), code, info);
            }
          }
        case InstantiateContract(sender, _, _, _) =>
          assert sender in GetSigners(m);
        case ExecuteContract(sender, _, _, _) =>
          assert sender in GetSigners(m);
        case Other(_) =>
        case _ =>
          TransferEffect(env, w, m);
          SoundMono(w.bank, Transfer(env, w, m).w.bank, Signers(m), {self});
      }
    }
  }

  lemma StepSendEffect(env: Env, w: World, self: address, origin: Text, target: Text, tokens: seq<WasmCoin>)
    requires w.meter.Metered?
    ensures Paid(w, StepSend(env, w, self, origin, target, tokens).w, {self})
  {
    hide Sound, Transfer, FromWasm;
    SoundRefl(w.bank, {self});
    var converted := ConvertSendMsg(env, origin, target, tokens);
    if converted.Ok? {
      TransferEffect(env, w, converted.value);
      if Authorised(self, converted.value) {
        SoundMono(w.bank, Transfer(env, w, converted.value).w.bank, Signers(converted.value), {self});
      }
    }
  }

  lemma DispatchHasEffect(env: Env, w: World, self: address, m: CosmosMsg)
    requires w.meter.Metered?
    ensures DispatchEffect(env, w, self, Step(env, w, Dispatch(self, m)))
  {
    hide Sound, StepSdk, StepSend, Weight, CreateEffect;
    SoundRefl(w.bank, {self});
    if m.send.Some? {
      StepSendEffect(env, w, self, m.send.value.from, m.send.value.to, m.send.value.amount);
    } else if m.contract.Some? {
      StepSendEffect(env, w, self, Parsed(self), m.contract.value.contractAddr, m.contract.value.send);
    } else if m.opaque_.Some? && m.opaque_.value.Some? {
      StepSdkEffect(env, w, self, m.opaque_.value.value);
    }
  }
}
