/** How every operation ends: its answer, the gas it spent and the state it leaves, for all inputs
    and at every point of failure, in terms of amounts, bytes and the foreign functions. */
module Answers {
  import opened Bytes
  import opened Outcome
  import opened Layout
  import opened Coins
  import opened Bank
  import opened Gas
  import opened Types
  import opened Engine
  import opened Machine
  import opened Effects

  const NO_GAS: Panic := OutOfGas(StoreAccess)

  /** The world with `consumed` gas on its meter. */
  function At(w: World, consumed: nat): World
    requires w.meter.Metered?
  {
    w.(meter := Metered(w.meter.limit, consumed))
  }

  // ------------------------------------------------------------------ store and accounts

  lemma ChargeEnds(w: World, amount: nat, what: Charged)
    requires w.meter.Metered?
    ensures var m := w.meter.consumed + amount;
            Charge(w, amount, what) == Res(At(w, m), if m > w.meter.limit then Panicked(OutOfGas(what)) else Ok(()))
  {
  }

  lemma ReadEnds(env: Env, w: World, s: Slot)
    requires w.meter.Metered?
    ensures var m := w.meter.consumed + env.readCost(Encode(s), Lookup(w.reg, s));
            Read(env, w, s) == Res(At(w, m), if m > w.meter.limit then Panicked(NO_GAS) else Ok(Lookup(w.reg, s)))
  {
    hide Lookup, Encode;
  }

  lemma WriteEnds(env: Env, w: World, s: Slot, value: Value)
    requires w.meter.Metered? && Fits(s, value)
    ensures var m := w.meter.consumed + env.writeCost(Encode(s), value);
            Write(env, w, s, value)
            == if m > w.meter.limit then Res(At(w, m), Panicked(NO_GAS)) else Res(At(w.(reg := Put(w.reg, s, value)), m), Ok(()))
  {
    hide Put, Encode, Fits;
  }

  lemma GetAccountEnds(env: Env, w: World, a: bytes)
    requires w.meter.Metered?
    ensures var m := w.meter.consumed + env.accountCost(a);
            GetAccount(env, w, a)
            == Res(At(w, m), if m > w.meter.limit then Panicked(NO_GAS) else if a in w.bank then Ok(Some(w.bank[a])) else Ok(None))
  {
  }

  // ------------------------------------------------------------------ transfers

  /** The coins leave one account and reach the other, and both exist. */
  ghost predicate Moves(l: Ledger, m: Ledger, from: bytes, to: bytes, coins: seq<Coin>) {
    && m.Keys == l.Keys + {from, to}
    && forall x, d :: Balance(m, x, d) == Balance(l, x, d) - (if x == from then AmountOf(coins, d) else 0)
                                                           + (if x == to then AmountOf(coins, d) else 0)
  }

  /** Why a transfer of these coins is refused, if it is. */
  ghost function Refusal(env: Env, l: Ledger, from: bytes, coins: seq<Coin>): Option<Error> {
    if !WellFormed(env.denomOk, coins) then Some(InvalidCoins)
    else if !HasCoins(l, from, coins) then Some(InsufficientCoins)
    else None
  }

  lemma TransferEnds(env: Env, w: World, from: bytes, to: bytes, coins: seq<Coin>)
    requires w.meter.Metered?
    ensures var r := Transfer(env, w, BankSend(from, to, coins));
            var m := w.meter.consumed + env.bankCost(BankSend(from, to, coins));
            var no := Refusal(env, w.bank, from, coins);
            if m > w.meter.limit then r == Res(At(w, m), Panicked(NO_GAS))
            else if no.Some? then r == Res(At(w, m), Err(no.value))
            else r == Res(At(w.(bank := r.w.bank), m), Ok(())) && Moves(w.bank, r.w.bank, from, to, coins)
  {
    hide Send, MultiSend, WellFormed, HasCoins, Balance;
    SendEnds(env.denomOk, w.bank, from, to, coins);
    var sent := Send(env.denomOk, w.bank, from, to, coins);
    if sent.Ok? {
      forall x, d ensures Balance(sent.value, x, d) == Balance(w.bank, x, d) - (if x == from then AmountOf(coins, d) else 0)
                                                                         + (if x == to then AmountOf(coins, d) else 0)
      {
        SendMoves(env.denomOk, w.bank, from, to, coins, x, d);
      }
    }
  }

  lemma MultiTransferEnds(env: Env, w: World, ins: seq<Party>, outs: seq<Party>)
    requires w.meter.Metered?
    ensures var r := Transfer(env, w, BankMultiSend(ins, outs));
            var m := w.meter.consumed + env.bankCost(BankMultiSend(ins, outs));
            if m > w.meter.limit then r == Res(At(w, m), Panicked(NO_GAS))
            else if !FairDeal(env.denomOk, ins, outs) then r == Res(At(w, m), Err(InvalidCoins))
            else if !InputsCovered(w.bank, ins) then r == Res(At(w, m), Err(InsufficientCoins))
            else && r == Res(At(w.(bank := r.w.bank), m), Ok(()))
                 && r.w.bank.Keys == w.bank.Keys + Addrs(ins) + Addrs(outs)
                 && forall x, d :: Balance(r.w.bank, x, d) == Balance(w.bank, x, d) - ShareOf(ins, x, d) + ShareOf(outs, x, d)
  {
    hide Send, MultiSend, FairDeal, InputsCovered, Balance;
    MultiSendEnds(env.denomOk, w.bank, ins, outs);
    var sent := MultiSend(env.denomOk, w.bank, ins, outs);
    if sent.Ok? {
      forall x, d ensures Balance(sent.value, x, d) == Balance(w.bank, x, d) - ShareOf(ins, x, d) + ShareOf(outs, x, d) {
        MultiSendMoves(env.denomOk, w.bank, ins, outs, x, d);
      }
    }
  }

  // ------------------------------------------------------------------ counters and codes

  /** A counter hands out what it holds, or 1, and then holds the next number in 64 bits. */
  lemma IncrementEnds(env: Env, w: World, s: Slot)
    requires w.meter.Metered? && (s.LastCode? || s.LastInstance?)
    ensures var counter := if s.LastCode? then w.reg.codeSeq else w.reg.instanceSeq;
            var id: uint64 := if counter.Some? then counter.value else 1;
            var next: uint64 := (id + 1) % 0x1_0000_0000_0000_0000;
            var held := if counter.Some? then Some(Counter(Uint64ToBigEndian(counter.value))) else None;
            var m1 := w.meter.consumed + env.readCost(Encode(s), held);
            var m2 := m1 + env.writeCost(Encode(s), Counter(Uint64ToBigEndian(next)));
            var reg := if s.LastCode? then w.reg.(codeSeq := Some(next)) else w.reg.(instanceSeq := Some(next));
            AutoIncrementID(env, w, s)
            == if m1 > w.meter.limit then Res(At(w, m1), Panicked(NO_GAS))
               else if m2 > w.meter.limit then Res(At(w, m2), Panicked(NO_GAS))
               else Res(At(w.(reg := reg), m2), Ok(id))
  {
    hide Read, Write, Encode, Put, BigEndianToUint64;
    ReadEnds(env, w, s);
    CounterRead(w.reg, s);
    var r := Read(env, w, s);
    if r.out.Ok? {
      var next: uint64 := (Next(CounterAt(w.reg, s)) + 1) % TWO_64;
      WriteEnds(env, r.w, s, Counter(Uint64ToBigEndian(next)));
      CounterWritten(w.reg, s, next);
    }
  }

  /** An upload fails as such exactly if it contains no wasm that the virtual machine takes, and
      then nothing at all has changed. */
  lemma CreateFailsIff(env: Env, w: World, creator: bytes, upload: bytes, source: string, builder: string)
    ensures var r := Create(env, w, creator, upload, source, builder);
            && (r.out == Err(CreateFailed) <==> !exists code :: Contains(env, upload, code) && IsWasm(env, code))
            && (r.out == Err(CreateFailed) ==> r.w == w)
  {
    hide AutoIncrementID, Write, Uncompress, Compiles, Contains, IsWasm;
    var code := Uncompress(env, upload);
    forall c ensures (code == Some(c) <==> Contains(env, upload, c)) && (Compiles(env, c) <==> IsWasm(env, c)) {
      UncompressIff(env, upload, c);
      CompilesIff(env, c);
    }
    IncrementNeverFails(env, w);
  }

  lemma IncrementNeverFails(env: Env, w: World)
    ensures forall v :: !AutoIncrementID(env, v, LastCode).out.Err?
    ensures forall v, s, value :: Fits(s, value) ==> !Write(env, v, s, value).out.Err?
  {
    hide Put, Encode, Lookup;
  }

  /** Otherwise the wasm it contains is stored under the next id, if there is gas for that. */
  lemma CreateEnds(env: Env, w: World, creator: bytes, upload: bytes, source: string, builder: string, code: bytes)
    requires w.meter.Metered? && Contains(env, upload, code) && IsWasm(env, code)
    ensures var r := Create(env, w, creator, upload, source, builder);
            var id: uint64 := if w.reg.codeSeq.Some? then w.reg.codeSeq.value else 1;
            var next: uint64 := (id + 1) % 0x1_0000_0000_0000_0000;
            var info := CodeInfo(env.codeHash(code), creator, source, builder);
            var m := w.meter.consumed
                     + env.readCost(Encode(LastCode), if w.reg.codeSeq.Some? then Some(Counter(Uint64ToBigEndian(id))) else None)
                     + env.writeCost(Encode(LastCode), Counter(Uint64ToBigEndian(next)))
                     + env.writeCost(Encode(Code(id)), CodeValue(info));
            && (m > w.meter.limit ==> r.out == Panicked(NO_GAS))
            && (m <= w.meter.limit ==>
                  r == Res(At(w.(vm := w.vm[info.hash := code],
                                 reg := w.reg.(codeSeq := Some(next), codes := w.reg.codes[id := info])), m), Ok(id)))
  {
    hide AutoIncrementID, Write, Uncompress, Compiles, Encode;
    UncompressIff(env, upload, code);
    CompilesIff(env, code);
    var hash := env.codeHash(code);
    var w0 := w.(vm := w.vm[hash := code]);
    IncrementEnds(env, w0, LastCode);
    var r := AutoIncrementID(env, w0, LastCode);
    if r.out.Ok? {
      WriteEnds(env, r.w, Code(r.out.value), CodeValue(CodeInfo(hash, creator, source, builder)));
    }
  }

  // ------------------------------------------------------------------ running a contract

  /** The store after a contract's writes: the last write under each key decides. */
  ghost predicate Wrote(before: map<bytes, bytes>, us: seq<Update>, later: map<bytes, bytes>) {
    forall k ::
      && ((forall i :: 0 <= i < |us| ==> us[i].key != k) ==> (if k in before then k in later && later[k] == before[k] else k !in later))
      && (forall i :: 0 <= i < |us| && us[i].key == k && (forall j :: i < j < |us| ==> us[j].key != k)
                      ==> if us[i].Set? then k in later && later[k] == us[i].value else k !in later)
  }

  /** The gas a contract is granted: a hundred units for each one left, in 64 bits, and at most 900
      million. */
  function Grant(m: Meter): uint64
    requires m.Metered?
  {
    var product := (m.limit - m.consumed) * 100 % 0x1_0000_0000_0000_0000;
    if product <= 900_000_000 then product else 900_000_000
  }

  /** What a run costs and how it ends: its storage gas, and then, if it reports no error, one for
      each full hundred of the gas it reports. What it wrote, `reg`, stays whatever happens. */
  function Settled(w: World, reg: Registry, inp: RunInput, run: RunOutput): Res<RunResult>
    requires w.meter.Metered?
  {
    var m1 := w.meter.consumed + run.storageGas;
    var v := w.(reg := reg, log := w.log + [Ran(inp.contract)]);
    if m1 > w.meter.limit then Res(At(v, m1), Panicked(NO_GAS))
    else if run.result.None? then Res(At(v, m1), Err(if inp.entry.OnInit? then InstantiateFailed else ExecuteFailed))
    else
      var used := run.result.value.gasUsed;
      var m2 := m1 + used / 100;
      Res(At(v.(log := v.log + [Billed(inp, used, used / 100)]), m2),
          if m2 > w.meter.limit then Panicked(OutOfGas(WasmContract)) else Ok(run.result.value))
  }

  /** How a run of a contract ends. It is given its own store and the grant. */
  ghost predicate RunEnds(env: Env, w: World, entry: Entry, hash: bytes, self: address, signer: bytes, coins: seq<Coin>,
                          balance: Balances, msg: bytes, r: Res<RunResult>)
    requires w.meter.Metered?
  {
    var inp := RunInput(entry, hash, signer, ToWasm(coins), self, balance, msg, SubStore(w.reg, self), Grant(w.meter));
    var later := SubStore(r.w.reg, self);
    && Wrote(inp.store, env.run(inp).updates, later)
    && r == Settled(w, w.reg.(data := w.reg.data[self := later]), inp, env.run(inp))
  }

  lemma SettledKeepsReg(w: World, reg: Registry, inp: RunInput, run: RunOutput)
    requires w.meter.Metered?
    ensures Settled(w, reg, inp, run).w.reg == reg
  {
  }

  lemma InvokeSettles(env: Env, w: World, entry: Entry, hash: bytes, self: address, signer: bytes, coins: seq<Coin>,
                      balance: Balances, msg: bytes)
    requires w.meter.Metered?
    ensures var inp := RunInput(entry, hash, signer, ToWasm(coins), self, balance, msg, SubStore(w.reg, self), Grant(w.meter));
            var after := ApplyUpdates(inp.store, env.run(inp).updates);
            Invoke(env, w, entry, hash, self, signer, coins, balance, msg)
            == Settled(w, w.reg.(data := w.reg.data[self := after]), inp, env.run(inp))
  {
    hide ApplyUpdates, ToWasm, SubStore, Later, GasForContract, ChargeFor, Charge, GasLeft;
    var inp := RunInput(entry, hash, signer, ToWasm(coins), self, balance, msg, SubStore(w.reg, self), Grant(w.meter));
    var run := env.run(inp);
    Conversions(w.meter.limit, w.meter.consumed, if run.result.Some? then run.result.value.gasUsed else 0);
    var reg := w.reg.(data := w.reg.data[self := ApplyUpdates(inp.store, run.updates)]);
    var v := Log(w.(reg := reg), Ran(self));
    ChargeEnds(v, run.storageGas, StoreAccess);
    if run.result.Some? {
      var used := run.result.value.gasUsed;
      ChargeEnds(Log(Charge(v, run.storageGas, StoreAccess).w, Billed(inp, used, used / 100)), used / 100, WasmContract);
    }
  }

  lemma InvokeEnds(env: Env, w: World, entry: Entry, hash: bytes, self: address, signer: bytes, coins: seq<Coin>,
                   balance: Balances, msg: bytes)
    requires w.meter.Metered?
    ensures RunEnds(env, w, entry, hash, self, signer, coins, balance, msg,
                    Invoke(env, w, entry, hash, self, signer, coins, balance, msg))
  {
    hide Invoke, ApplyUpdates, ToWasm, SubStore, Wrote, Settled, Grant;
    InvokeSettles(env, w, entry, hash, self, signer, coins, balance, msg);
    var inp := RunInput(entry, hash, signer, ToWasm(coins), self, balance, msg, SubStore(w.reg, self), Grant(w.meter));
    var after := ApplyUpdates(inp.store, env.run(inp).updates);
    DataFrame(w.reg, self, after);
    UpdatesWrote(inp.store, env.run(inp).updates);
    SettledKeepsReg(w, w.reg.(data := w.reg.data[self := after]), inp, env.run(inp));
  }

  lemma UpdatesWrote(before: map<bytes, bytes>, us: seq<Update>)
    ensures Wrote(before, us, ApplyUpdates(before, us))
  {
    forall k
      ensures var later := ApplyUpdates(before, us);
              && ((forall i :: 0 <= i < |us| ==> us[i].key != k) ==> (if k in before then k in later && later[k] == before[k] else k !in later))
              && (forall i :: 0 <= i < |us| && us[i].key == k && (forall j :: i < j < |us| ==> us[j].key != k)
                              ==> if us[i].Set? then k in later && later[k] == us[i].value else k !in later)
    {
      UpdatesLast(before, us, k);
    }
  }

  // ------------------------------------------------------------------ Execute, up to dispatching

  function Found(reg: Registry, addr: bytes): Option<ContractInfo> {
    if |addr| == 20 && addr in reg.contracts then Some(reg.contracts[addr]) else None
  }

  function FoundCode(reg: Registry, id: uint64): Option<CodeInfo> {
    if id in reg.codes then Some(reg.codes[id]) else None
  }

  function ContractCost(env: Env, reg: Registry, addr: bytes): nat {
    var info := Found(reg, addr);
    env.readCost(Encode(Contract(addr)), if info.Some? then Some(ContractValue(info.value)) else None)
  }

  function CodeCost(env: Env, reg: Registry, id: uint64): nat {
    var code := FoundCode(reg, id);
    env.readCost(Encode(Code(id)), if code.Some? then Some(CodeValue(code.value)) else None)
  }

  /** The contract's record is looked up first, then its code's. */
  lemma ContractInstanceEnds(env: Env, w: World, addr: bytes)
    requires w.meter.Metered?
    ensures var limit, info := w.meter.limit, Found(w.reg, addr);
            var m1 := w.meter.consumed + ContractCost(env, w.reg, addr);
            ContractInstance(env, w, addr)
            == if m1 > limit then Res(At(w, m1), Panicked(NO_GAS))
               else if info.None? then Res(At(w, m1), Err(ContractNotFound))
               else
                 var code, m2 := FoundCode(w.reg, info.value.codeID), m1 + CodeCost(env, w.reg, info.value.codeID);
                 Res(At(w, m2), if m2 > limit then Panicked(NO_GAS) else if code.None? then Err(CodeNotFound) else Ok(code.value))
  {
    hide Read, Encode;
    ReadEnds(env, w, Contract(addr));
    var r := Read(env, w, Contract(addr));
    if r.out.Ok? && r.out.value.Some? {
      ReadEnds(env, r.w, Code(r.out.value.value.contract.codeID));
    }
  }

  /** How Execute gets on until it dispatches messages: the contract is found, the coins are moved,
      its account is read, and its code is run with what it then holds. */
  ghost predicate CallEnds(env: Env, w: World, addr: bytes, caller: bytes, msg: bytes, coins: seq<Coin>, r: Res<RunResult>)
    requires w.meter.Metered?
  {
    var w0 := w.(log := w.log + [Called(addr)]);
    var found := ContractInstance(env, w0, addr);
    if !found.out.Ok? then r == Res(found.w, found.out.PropagateFailure())
    else
      var m := found.w.meter.consumed + env.bankCost(BankSend(caller, addr, coins));
      var no := Refusal(env, w.bank, caller, coins);
      if m > w.meter.limit then r == Res(At(w0, m), Panicked(NO_GAS))
      else if no.Some? then r == Res(At(w0, m), Err(no.value))
      else
        var v := At(w0.(bank := r.w.bank), m + env.accountCost(addr));
        && Moves(w.bank, v.bank, caller, addr, coins)
        && if v.meter.consumed > w.meter.limit then r == Res(v, Panicked(NO_GAS))
           else RunEnds(env, v, OnHandle, found.out.value.hash, addr, caller, coins, v.bank[addr], msg, r)
  }

  lemma RunKeepsBank(env: Env, w: World, entry: Entry, hash: bytes, self: address, signer: bytes, coins: seq<Coin>,
                     balance: Balances, msg: bytes)
    requires w.meter.Metered?
    ensures Invoke(env, w, entry, hash, self, signer, coins, balance, msg).w.bank == w.bank
  {
    InvokeSettles(env, w, entry, hash, self, signer, coins, balance, msg);
    hide Invoke, ApplyUpdates, ToWasm, SubStore, Grant;
  }

  lemma ExecuteHeadEnds(env: Env, w: World, addr: bytes, caller: bytes, msg: bytes, coins: seq<Coin>)
    requires w.meter.Metered?
    ensures CallEnds(env, w, addr, caller, msg, coins, ExecuteHead(env, w, addr, caller, msg, coins))
  {
    hide ContractInstance, Transfer, GetAccount, Invoke, RunEnds, Refusal, Balance, Later, Found, FoundCode, ContractCost, CodeCost;
    var w0 := Log(w, Called(addr));
    ContractInstanceEnds(env, w0, addr);
    var i := ContractInstance(env, w0, addr);
    if i.out.Ok? {
      TransferEnds(env, i.w, caller, addr, coins);
      var p := Transfer(env, i.w, BankSend(caller, addr, coins));
      if p.out.Ok? {
        GetAccountEnds(env, p.w, addr);
        var g := GetAccount(env, p.w, addr);
        assert addr in p.w.bank;
        if g.out.Ok? {
          InvokeEnds(env, g.w, OnHandle, i.out.value.hash, addr, caller, coins, p.w.bank[addr], msg);
          RunKeepsBank(env, g.w, OnHandle, i.out.value.hash, addr, caller, coins, p.w.bank[addr], msg);
        }
      }
    }
  }

  // ------------------------------------------------------------------ Instantiate, up to dispatching

  /** The address of a code's instance: the hash of 'C', the varint of the two ids in one 64-bit
      number, and zeros. */
  ghost predicate IsAddressOf(env: Env, codeID: uint64, instanceID: uint64, addr: address) {
    var id: uint64 := (codeID * 0x1_0000_0000 + instanceID) % 0x1_0000_0000_0000_0000;
    exists buf: bytes, n: nat :: IsHashOf(env, buf, n, id, addr)
  }

  predicate IsHashOf(env: Env, buf: bytes, n: nat, id: uint64, addr: address) {
    IsAddressBuffer(buf, id, n) && addr == env.addressHash(buf)
  }

  lemma AddressIs(env: Env, codeID: uint64, instanceID: uint64)
    ensures IsAddressOf(env, codeID, instanceID, AddrFromUint64(env, ContractID(codeID, instanceID)))
  {
    hide IsAddressBuffer, AddressBuffer;
    var id := ContractID(codeID, instanceID);
    AddressBufferIs(id);
    var n: nat :| IsAddressBuffer(AddressBuffer(id), id, n);
    assert IsHashOf(env, AddressBuffer(id), n, id, env.addressHash(AddressBuffer(id)));
  }

  lemma NewAddressIs(env: Env, w: World, codeID: uint64)
    ensures IsAddressOf(env, codeID, if w.reg.instanceSeq.Some? then w.reg.instanceSeq.value else 1, NewAddress(env, w, codeID))
  {
    hide AddrFromUint64, ContractID, IsAddressOf;
    AddressIs(env, codeID, Next(w.reg.instanceSeq));
  }

  /** The next instance id is drawn, and the address for it is generated. */
  lemma GenerateEnds(env: Env, w: World, codeID: uint64)
    requires w.meter.Metered?
    ensures var r := GenerateContractAddress(env, w, codeID);
            var id: uint64 := if w.reg.instanceSeq.Some? then w.reg.instanceSeq.value else 1;
            var next: uint64 := (id + 1) % 0x1_0000_0000_0000_0000;
            var m1 := w.meter.consumed
                      + env.readCost(Encode(LastInstance), if w.reg.instanceSeq.Some? then Some(Counter(Uint64ToBigEndian(id))) else None);
            var m2 := m1 + env.writeCost(Encode(LastInstance), Counter(Uint64ToBigEndian(next)));
            if m1 > w.meter.limit then r == Res(At(w, m1), Panicked(NO_GAS))
            else if m2 > w.meter.limit then r == Res(At(w, m2), Panicked(NO_GAS))
            else && r.out.Ok? && IsAddressOf(env, codeID, id, r.out.value)
                 && r.w == At(w.(reg := w.reg.(instanceSeq := Some(next)), log := w.log + [Generated(codeID, id)]), m2)
  {
    hide AutoIncrementID, Encode, Uint64ToBigEndian, AddrFromUint64, ContractID, IsAddressOf, Later;
    IncrementEnds(env, w, LastInstance);
    AddressIs(env, codeID, if w.reg.instanceSeq.Some? then w.reg.instanceSeq.value else 1);
  }

  /** Funding the new account and running the init code. The code is only looked up once the
      deposit was paid. */
  ghost predicate SetUpEnds(env: Env, w: World, addr: address, codeID: uint64, creator: bytes, initMsg: bytes, deposit: seq<Coin>,
                            r: Res<RunResult>)
    requires w.meter.Metered?
  {
    var limit, code := w.meter.limit, FoundCode(w.reg, codeID);
    var m1 := w.meter.consumed + env.bankCost(BankSend(creator, addr, deposit));
    var m2 := m1 + env.accountCost(addr);
    var m3 := m2 + CodeCost(env, w.reg, codeID);
    var no := Refusal(env, w.bank, creator, deposit);
    var paid := w.(bank := r.w.bank);
    if m1 > limit then r == Res(At(w, m1), Panicked(NO_GAS))
    else if no.Some? then r == Res(At(w, m1), Err(no.value))
    else
      && Moves(w.bank, r.w.bank, creator, addr, deposit)
      && if m2 > limit then r == Res(At(paid, m2), Panicked(NO_GAS))
         else if m3 > limit then r == Res(At(paid, m3), Panicked(NO_GAS))
         else if code.None? then r == Res(At(paid, m3), Err(CodeNotFound))
         else RunEnds(env, At(paid, m3), OnInit, code.value.hash, addr, creator, deposit, r.w.bank[addr], initMsg, r)
  }

  lemma SetUpAnswers(env: Env, w: World, addr: address, codeID: uint64, creator: bytes, initMsg: bytes, deposit: seq<Coin>)
    requires w.meter.Metered?
    ensures SetUpEnds(env, w, addr, codeID, creator, initMsg, deposit, SetUp(env, w, addr, codeID, creator, initMsg, deposit))
  {
    hide Transfer, GetAccount, Read, Invoke, RunEnds, Refusal, Balance, Encode, Later;
    TransferEnds(env, w, creator, addr, deposit);
    var p := Transfer(env, w, BankSend(creator, addr, deposit));
    if p.out.Ok? {
      GetAccountEnds(env, p.w, addr);
      var g := GetAccount(env, p.w, addr);
      assert addr in p.w.bank;
      if g.out.Ok? {
        ReadEnds(env, g.w, Code(codeID));
        var c := Read(env, g.w, Code(codeID));
        if c.out.Ok? && c.out.value.Some? {
          var hash := c.out.value.value.code.hash;
          InvokeEnds(env, c.w, OnInit, hash, addr, creator, deposit, p.w.bank[addr], initMsg);
          RunKeepsBank(env, c.w, OnInit, hash, addr, creator, deposit, p.w.bank[addr], initMsg);
        }
      }
    }
  }

  /** How Instantiate gets on until it dispatches messages. */
  lemma InstantiateHeadEnds(env: Env, w: World, codeID: uint64, creator: bytes, initMsg: bytes, deposit: seq<Coin>)
    requires w.meter.Metered?
    ensures var r := InstantiateHead(env, w, codeID, creator, initMsg, deposit);
            var gen := GenerateContractAddress(env, w, codeID);
            if !gen.out.Ok? then r == Res(gen.w, gen.out.PropagateFailure())
            else
              var addr, m := gen.out.value, gen.w.meter.consumed + env.accountCost(gen.out.value);
              if m > w.meter.limit then r == Res(At(gen.w, m), Panicked(NO_GAS))
              else if addr in w.bank then r == Res(At(gen.w, m), Err(AccountExists))
              else
                && (r.out.Ok? ==> r.out.value.0 == addr)
                && SetUpEnds(env, At(gen.w, m), addr, codeID, creator, initMsg, deposit, Res(r.w, Second(r.out)))
  {
    hide GenerateContractAddress, GetAccount, SetUp, SetUpEnds, Later, IsAddressOf;
    GenerateEnds(env, w, codeID);
    var gen := GenerateContractAddress(env, w, codeID);
    if gen.out.Ok? {
      GetAccountEnds(env, gen.w, gen.out.value);
      var got := GetAccount(env, gen.w, gen.out.value);
      if got.out.Ok? && got.out.value.None? {
        SetUpAnswers(env, got.w, gen.out.value, codeID, creator, initMsg, deposit);
      }
    }
  }

  /** What Instantiate returns is the address of the next instance, now recorded as asked. */
  lemma InstantiateReturns(env: Env, w: World, codeID: uint64, creator: bytes, initMsg: bytes, deposit: seq<Coin>)
    requires w.meter.Metered?
    ensures var r := Instantiate(env, w, codeID, creator, initMsg, deposit);
            r.out.Ok? ==>
              && IsAddressOf(env, codeID, if w.reg.instanceSeq.Some? then w.reg.instanceSeq.value else 1, r.out.value)
              && Found(r.w.reg, r.out.value) == Some(ContractInfo(codeID, creator, initMsg))
  {
    hide InstantiateHead, DispatchMessages, GenerateContractAddress, IsAddressOf, Encode, SetUpEnds, Later;
    InstantiateHeadEnds(env, w, codeID, creator, initMsg, deposit);
    GenerateEnds(env, w, codeID);
  }

  /** Drops the address from the answer. */
  function Second<A, B>(out: Out<(A, B)>): Out<B> {
    match out
    case Ok((_, b)) => Ok(b)
    case Err(e) => Err(e)
    case Panicked(p) => Panicked(p)
  }

  // ------------------------------------------------------------------ messages of contracts

  /** `self` is the one whom the message speaks for, in each of its parts. */
  predicate SpeaksFor(self: address, m: SdkMsg) {
    match m
    case BankSend(from, _, _) => from == self
    case BankMultiSend(ins, _) => forall p :: p in ins ==> p.addr == self
    case StoreCode(sender, _, _, _) => sender == self
    case InstantiateContract(sender, _, _, _) => sender == self
    case ExecuteContract(sender, _, _, _) => sender == self
    case Other(signers) => forall a :: a in signers ==> a == self
  }

  lemma AuthorisedIff(self: address, m: SdkMsg)
    ensures Authorised(self, m) <==> SpeaksFor(self, m)
  {
    match m {
      case BankMultiSend(ins, _) =>
        if Authorised(self, m) {
          forall p | p in ins ensures p.addr == self {
            var i :| 0 <= i < |ins| && ins[i] == p;
            assert GetSigners(m)[i] in GetSigners(m);
          }
        } else {
          var a :| a in GetSigners(m) && a != self;
          var i :| 0 <= i < |ins| && GetSigners(m)[i] == a;
          assert ins[i] in ins;
        }
      case Other(signers) =>
      case _ =>
        assert GetSigners(m)[0] in GetSigners(m);
    }
  }

  /** A contract's SDK message is refused, with nothing changed, exactly unless it speaks for that
      contract; otherwise it is handled as anyone's would be. Uploads and transfers end as
      unauthorised for no other reason. */
  lemma HandleSdkMessageEnds(env: Env, w: World, self: address, m: SdkMsg)
    requires w.meter.Metered?
    ensures var r := HandleSdkMessage(env, w, self, m);
            && (if SpeaksFor(self, m) then r == Handle(env, w, m) else r == Res(w, Err(Unauthorized)))
            && (!m.InstantiateContract? && !m.ExecuteContract? ==> (r.out == Err(Unauthorized) <==> !SpeaksFor(self, m)))
  {
    hide Authorised, SpeaksFor, Create, Transfer, Execute, Instantiate;
    AuthorisedIff(self, m);
    match m {
      case StoreCode(sender, code, source, builder) =>
        CreateIsAuthorised(env, w, sender, code, source, builder);
      case BankSend(from, to, amount) =>
        TransferEnds(env, w, from, to, amount);
      case BankMultiSend(ins, outs) =>
        MultiTransferEnds(env, w, ins, outs);
      case _ =>
    }
  }

  lemma CreateIsAuthorised(env: Env, w: World, creator: bytes, upload: bytes, source: string, builder: string)
    ensures Create(env, w, creator, upload, source, builder).out != Err(Unauthorized)
  {
    hide AutoIncrementID, Write, Encode;
    IncrementNeverFails(env, w);
  }

  /** Where a message goes, whoever signed it. */
  lemma HandleEnds(env: Env, w: World, m: SdkMsg)
    requires w.meter.Metered?
    ensures var r := Handle(env, w, m);
            match m
            case StoreCode(sender, upload, source, builder) =>
              if env.storeCodeOk(m)
              then var c := Create(env, w, sender, upload, source, builder); r == Res(c.w, Ending(c.out))
              else r == Res(w, Err(InvalidMsg))
            case InstantiateContract(sender, codeID, initMsg, funds) =>
              var i := Instantiate(env, w, codeID, sender, initMsg, funds);
              r == Res(i.w, Ending(i.out))
            case ExecuteContract(sender, contract, msg, funds) =>
              var x := Execute(env, w, contract, sender, msg, funds);
              r == Res(x.w, Ending(x.out))
            case Other(_) => r == Res(w, Err(UnknownRequest))
            case _ => if env.bankRefuses(m) then r == Res(w, Err(BankRefused)) else r == Transfer(env, w, m)
  {
    hide Create, Transfer, Execute, Instantiate;
  }

  /** The coins a list of amounts in text stands for. */
  ghost predicate Reads(env: Env, tokens: seq<WasmCoin>, coins: seq<Coin>) {
    && |coins| == |tokens|
    && forall i :: 0 <= i < |tokens| ==>
         coins[i].denom == tokens[i].denom && ParseAmount(env.otherForms, tokens[i].amount) == Some(coins[i].amount)
  }

  lemma FromWasmIff(env: Env, tokens: seq<WasmCoin>, coins: seq<Coin>)
    ensures FromWasm(env.otherForms, tokens) == Some(coins) <==> Reads(env, tokens, coins)
  {
    if Reads(env, tokens, coins) {
      forall c | c in tokens ensures ParseAmount(env.otherForms, c.amount).Some? {
        var i :| 0 <= i < |tokens| && tokens[i] == c;
      }
      var parsed := FromWasm(env.otherForms, tokens).value;
      forall i | 0 <= i < |coins| ensures parsed[i] == coins[i] {
        assert Some(parsed[i].amount) == Some(coins[i].amount);
      }
      assert parsed == coins;
    }
  }

  /** Sending no tokens does nothing; an address or an amount that cannot be read is refused, with
      nothing changed. */
  lemma UnreadableSendEnds(env: Env, w: World, self: address, origin: Text, target: Text, tokens: seq<WasmCoin>)
    requires w.meter.Metered?
    ensures var r := SendTokens(env, w, self, origin, target, tokens);
            && (tokens == [] ==> r == Res(w, Ok(())))
            && (tokens != [] && (origin.Malformed? || target.Malformed?) ==> r == Res(w, Err(InvalidAddress)))
            && (tokens != [] && origin.Parsed? && target.Parsed? && !(exists coins :: Reads(env, tokens, coins))
                ==> r == Res(w, Err(InvalidCoins)))
  {
    hide HandleSdkMessage, Reads, FromWasm;
    var parsed := FromWasm(env.otherForms, tokens);
    if parsed.Some? {
      FromWasmIff(env, tokens, parsed.value);
    }
  }

  /** How a send of readable tokens ends, for every number of coins: refused unless the contract
      itself is the sender, refused by the bank for its own reasons, out of gas, refused for the
      coins, or done. */
  lemma SendTokensEnds(env: Env, w: World, self: address, from: bytes, to: bytes, tokens: seq<WasmCoin>, coins: seq<Coin>)
    requires w.meter.Metered? && tokens != [] && Reads(env, tokens, coins)
    ensures var r := SendTokens(env, w, self, Parsed(from), Parsed(to), tokens);
            var m := BankSend(from, to, coins);
            var spent := w.meter.consumed + env.bankCost(m);
            var no := Refusal(env, w.bank, from, coins);
            if from != self then r == Res(w, Err(Unauthorized))
            else if env.bankRefuses(m) then r == Res(w, Err(BankRefused))
            else if spent > w.meter.limit then r == Res(At(w, spent), Panicked(NO_GAS))
            else if no.Some? then r == Res(At(w, spent), Err(no.value))
            else r == Res(At(w.(bank := r.w.bank), spent), Ok(())) && Moves(w.bank, r.w.bank, from, to, coins)
  {
    hide Transfer, Reads, FromWasm, Moves, Refusal, Handle, HandleSdkMessage;
    FromWasmIff(env, tokens, coins);
    var m := BankSend(from, to, coins);
    HandleSdkMessageEnds(env, w, self, m);
    HandleEnds(env, w, m);
    TransferEnds(env, w, from, to, coins);
    assert SendTokens(env, w, self, Parsed(from), Parsed(to), tokens) == HandleSdkMessage(env, w, self, m);
  }

  /** When a contract's send succeeds: exactly if the addresses can be read and the sender is the
      contract, the amounts can be read and are positive, the denominations are well-formed and
      ascend, the contract has enough of each, the bank does not refuse, and there is gas for it. */
  lemma SendMessageSucceedsIff(env: Env, w: World, self: address, m: CosmosMsg)
    requires w.meter.Metered? && m.send.Some? && m.send.value.amount != []
    ensures var s := m.send.value;
            DispatchMessage(env, w, self, m).out.Ok?
            <==> && s.from == Parsed(self) && s.to.Parsed?
                 && exists coins :: && Reads(env, s.amount, coins) && WellFormed(env.denomOk, coins) && HasCoins(w.bank, self, coins)
                                    && !env.bankRefuses(BankSend(self, s.to.addr, coins))
                                    && w.meter.consumed + env.bankCost(BankSend(self, s.to.addr, coins)) <= w.meter.limit
  {
    hide SendTokens, Reads, WellFormed, HasCoins, Moves;
    var s := m.send.value;
    var r := SendTokens(env, w, self, s.from, s.to, s.amount);
    assert DispatchMessage(env, w, self, m) == r;
    UnreadableSendEnds(env, w, self, s.from, s.to, s.amount);
    forall coins | Reads(env, s.amount, coins) && s.from.Parsed? && s.to.Parsed?
      ensures r.out.Ok? <==>
                && s.from.addr == self && WellFormed(env.denomOk, coins) && HasCoins(w.bank, self, coins)
                && !env.bankRefuses(BankSend(self, s.to.addr, coins))
                && w.meter.consumed + env.bankCost(BankSend(self, s.to.addr, coins)) <= w.meter.limit
    {
      SendTokensEnds(env, w, self, s.from.addr, s.to.addr, s.amount, coins);
    }
  }

  /** What each kind of message comes to. The first part that is present counts. */
  lemma DispatchMessageEnds(env: Env, w: World, self: address, m: CosmosMsg)
    requires w.meter.Metered?
    ensures var r := DispatchMessage(env, w, self, m);
            && (m.send.Some? ==> r == SendTokens(env, w, self, m.send.value.from, m.send.value.to, m.send.value.amount))
            && (m.send.None? && m.contract.Some? ==>
                  var c := m.contract.value;
                  if c.contractAddr.Malformed? then r == Res(w, Err(InvalidAddress))
                  else
                    var sent := SendTokens(env, w, self, Parsed(self), c.contractAddr, c.send);
                    if !sent.out.Ok? then r == sent
                    else var x := Execute(env, sent.w, c.contractAddr.addr, self, c.msg, []); r == Res(x.w, Ending(x.out)))
            && (m.send.None? && m.contract.None? && m.opaque_.Some? ==>
                  r == match m.opaque_.value case None => Res(w, Err(UndecodableMsg)) case Some(sdk) => HandleSdkMessage(env, w, self, sdk))
            && (m.send.None? && m.contract.None? && m.opaque_.None? ==> r == Res(w, Panicked(UnknownCosmosMsg)))
  {
    hide SendTokens, Execute, HandleSdkMessage;
  }
}
