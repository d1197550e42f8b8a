/** What a contract is given, and what a call leaves at each key of the flat store. */
module Invocations {
  import opened Bytes
  import opened Outcome
  import opened Layout
  import opened Coins
  import opened Bank
  import opened Gas
  import opened Types
  import opened Engine
  import opened Machine
  import opened Effects
  import opened Funds
  import opened Registrations
  import opened Lifecycle

  /** `out` is what the code `hash` answered when run at `self` on its store in `reg`, shown
      `signer`, the coins it was sent and its balance in `bank`; `later` holds what it wrote. */
  ghost predicate Answered(env: Env, reg: Registry, bank: Ledger, gas: uint64, entry: Entry, hash: bytes, self: address,
                           signer: bytes, coins: seq<Coin>, msg: bytes, res: RunResult, later: Registry) {
    var inp := RunInput(entry, hash, signer, ToWasm(coins), self, Held(bank, self), msg, SubStore(reg, self), gas);
    && env.run(inp).result == Some(res)
    && SubStore(later, self) == ApplyUpdates(SubStore(reg, self), env.run(inp).updates)
  }

  lemma InvokeAnswers(env: Env, w: World, entry: Entry, codeHash: bytes, self: address, signer: bytes,
                      coins: seq<Coin>, msg: bytes)
    requires w.meter.Metered? && w.meter.consumed <= w.meter.limit
    ensures var r := Invoke(env, w, entry, codeHash, self, signer, coins, Held(w.bank, self), msg);
            var gas := GasForContract(w.meter.limit, w.meter.consumed);
            && (r.out.Ok? ==> Answered(env, w.reg, w.bank, gas, entry, codeHash, self, signer, coins, msg, r.out.value, r.w.reg))
            && gas <= GasLeft(w) * GAS_MULTIPLIER
            && r.w.bank == w.bank
  {
    hide ApplyUpdates, GasForContract, ToWasm, ChargeFor, Held;
    GrantNeverExceedsMeter(w.meter.limit, w.meter.consumed);
  }

  lemma TransferMoves(env: Env, w: World, from: bytes, to: bytes, coins: seq<Coin>)
    requires w.meter.Metered?
    ensures var r := Transfer(env, w, BankSend(from, to, coins));
            r.out.Ok? ==>
              && Send(env.denomOk, w.bank, from, to, coins) == Ok(r.w.bank)
              && r.w.meter.Metered? && r.w.meter.consumed <= r.w.meter.limit && r.w.reg == w.reg
  {
    hide Send, MultiSend;
  }

  lemma GetAccountHolds(env: Env, w: World, a: bytes)
    requires w.meter.Metered?
    ensures var r := GetAccount(env, w, a);
            r.out.Ok? ==>
              && (r.out.value.Some? ==> r.out.value.value == Held(w.bank, a))
              && r.w.meter.Metered? && r.w.meter.consumed <= r.w.meter.limit && r.w.bank == w.bank && r.w.reg == w.reg
  {
  }

  lemma HeadRunsRegisteredCode(env: Env, w: World, addr: bytes, caller: bytes, msg: bytes, coins: seq<Coin>) returns (gas: uint64)
    requires w.meter.Metered?
    ensures gas <= GasLeft(w) * GAS_MULTIPLIER
    ensures var head := ExecuteHead(env, w, addr, caller, msg, coins);
            head.out.Ok? ==>
              && |addr| == 20 && addr in w.reg.contracts && w.reg.contracts[addr].codeID in w.reg.codes
              && var sent := Send(env.denomOk, w.bank, caller, addr, coins);
                 && sent == Ok(head.w.bank)
                 && Answered(env, w.reg, sent.value, gas, OnHandle, w.reg.codes[w.reg.contracts[addr].codeID].hash, addr,
                             caller, coins, msg, head.out.value, head.w.reg)
  {
    hide Send, MultiSend, Transfer, GetAccount, Invoke, Answered, ContractInstance, SubStore, Held;
    gas := 0;
    var w0 := Log(w, Called(addr));
    var i := ContractInstance(env, w0, addr);
    ContractInstanceFinds(env, w0, addr);
    if i.out.Ok? {
      TransferMoves(env, i.w, caller, addr, coins);
      var p := Transfer(env, i.w, BankSend(caller, addr, coins));
      if p.out.Ok? {
        GetAccountHolds(env, p.w, addr);
        var g := GetAccount(env, p.w, addr);
        if g.out.Ok? && g.out.value.Some? {
          gas := GasForContract(g.w.meter.limit, g.w.meter.consumed);
          InvokeAnswers(env, g.w, OnHandle, i.out.value.hash, addr, caller, coins, msg);
        }
      }
    }
  }

  lemma ContractInstanceFinds(env: Env, w: World, addr: bytes)
    ensures var r := ContractInstance(env, w, addr);
            && Idle(w, r.w)
            && (r.out.Ok? ==> && |addr| == 20 && addr in w.reg.contracts && w.reg.contracts[addr].codeID in w.reg.codes
                              && r.out.value == w.reg.codes[w.reg.contracts[addr].codeID])
  {
    hide Encode;
  }

  /** What Execute returns is what the contract's own run returned. */
  lemma ExecuteReturns(env: Env, w: World, addr: bytes, caller: bytes, msg: bytes, coins: seq<Coin>)
    requires w.meter.Metered?
    ensures var r := Execute(env, w, addr, caller, msg, coins);
            r.out.Ok? ==> r.out == ExecuteHead(env, w, addr, caller, msg, coins).out
  {
    hide ExecuteHead, DispatchMessages;
  }

  /** A successful Execute is the answer of the code the contract was registered with, run on the
      contract's own store, after the coins sent along were moved from the caller, with no more
      gas than the meter had. */
  lemma ExecuteRunsRegisteredCode(env: Env, w: World, addr: bytes, caller: bytes, msg: bytes, coins: seq<Coin>) returns (gas: uint64)
    requires w.meter.Metered?
    ensures gas <= GasLeft(w) * GAS_MULTIPLIER
    ensures var head := ExecuteHead(env, w, addr, caller, msg, coins);
            var r := Execute(env, w, addr, caller, msg, coins);
            r.out.Ok? ==>
              && |addr| == 20 && addr in w.reg.contracts && w.reg.contracts[addr].codeID in w.reg.codes
              && var sent := Send(env.denomOk, w.bank, caller, addr, coins);
                 && sent == Ok(head.w.bank)
                 && Answered(env, w.reg, sent.value, gas, OnHandle, w.reg.codes[w.reg.contracts[addr].codeID].hash, addr,
                             caller, coins, msg, r.out.value, head.w.reg)
  {
    hide Execute, ExecuteHead, Send, Answered;
    gas := HeadRunsRegisteredCode(env, w, addr, caller, msg, coins);
    ExecuteReturns(env, w, addr, caller, msg, coins);
  }

  /** A successful Instantiate ran the init code of the requested code id, at the drawn address,
      with the deposit already moved there. */
  lemma InstantiateRunsRequestedCode(env: Env, w: World, codeID: uint64, creator: bytes, initMsg: bytes, deposit: seq<Coin>) returns (gas: uint64)
    requires w.meter.Metered?
    ensures gas <= GasLeft(w) * GAS_MULTIPLIER
    ensures var r := InstantiateHead(env, w, codeID, creator, initMsg, deposit);
            r.out.Ok? ==>
              && r.out.value.0 == NewAddress(env, w, codeID) && codeID in w.reg.codes
              && var sent := Send(env.denomOk, w.bank, creator, r.out.value.0, deposit);
                 && sent == Ok(r.w.bank)
                 && Answered(env, w.reg, sent.value, gas, OnInit, w.reg.codes[codeID].hash, r.out.value.0,
                             creator, deposit, initMsg, r.out.value.1, r.w.reg)
  {
    hide AutoIncrementID, GetAccount, Answered, Encode, SubStore, Held, SetUp, Send, MultiSend, ContractID;
    gas := 0;
    AutoIncrementEffect(env, w, LastInstance);
    var gen := GenerateContractAddress(env, w, codeID);
    if gen.out.Ok? {
      GetAccountEffect(env, gen.w, gen.out.value);
      var got := GetAccount(env, gen.w, gen.out.value);
      if got.out.Ok? && got.out.value.None? {
        gas := SetUpRunsRequestedCode(env, got.w, gen.out.value, codeID, creator, initMsg, deposit);
        SameStores(env, w.reg, got.w.reg);
      }
    }
  }

  lemma SameStores(env: Env, reg: Registry, later: Registry)
    requires later.data == reg.data
    ensures forall bank, gas, entry, hash, self, signer, coins, msg, res, end ::
              Answered(env, reg, bank, gas, entry, hash, self, signer, coins, msg, res, end)
              == Answered(env, later, bank, gas, entry, hash, self, signer, coins, msg, res, end)
  {
  }

  lemma SetUpRunsRequestedCode(env: Env, w: World, addr: address, codeID: uint64, creator: bytes, initMsg: bytes, deposit: seq<Coin>) returns (gas: uint64)
    requires w.meter.Metered?
    ensures gas <= GasLeft(w) * GAS_MULTIPLIER
    ensures var r := SetUp(env, w, addr, codeID, creator, initMsg, deposit);
            r.out.Ok? ==>
              && codeID in w.reg.codes
              && var sent := Send(env.denomOk, w.bank, creator, addr, deposit);
                 && sent == Ok(r.w.bank)
                 && Answered(env, w.reg, sent.value, gas, OnInit, w.reg.codes[codeID].hash, addr,
                             creator, deposit, initMsg, r.out.value, r.w.reg)
  {
    hide Send, MultiSend, Transfer, GetAccount, Invoke, Answered, Encode, SubStore, Held;
    gas := 0;
    TransferMoves(env, w, creator, addr, deposit);
    var p := Transfer(env, w, BankSend(creator, addr, deposit));
    if p.out.Ok? {
      GetAccountHolds(env, p.w, addr);
      var g := GetAccount(env, p.w, addr);
      if g.out.Ok? {
        var c := Read(env, g.w, Code(codeID));
        if c.out.Ok? && c.out.value.Some? && g.out.value.Some? {
          gas := GasForContract(c.w.meter.limit, c.w.meter.consumed);
          InvokeAnswers(env, c.w, OnInit, c.out.value.value.code.hash, addr, creator, deposit, initMsg);
        }
      }
    }
  }

  // ------------------------------------------------------------------ exact transfers

  /** What a contract's send message does to every balance, to the coin: the amounts it names
      leave the contract, which must be the sender it names, and reach the receiver. */
  lemma SendMessageMoves(env: Env, w: World, self: address, m: CosmosMsg, x: bytes, d: Denom)
    requires w.meter.Metered? && m.send.Some? && m.send.value.amount != []
    ensures var r := DispatchMessage(env, w, self, m);
            r.out.Ok? ==>
              && m.send.value.from == Parsed(self) && m.send.value.to.Parsed?
              && var coins := FromWasm(env.otherForms, m.send.value.amount);
                 && coins.Some?
                 && Balance(r.w.bank, x, d) == Balance(w.bank, x, d)
                                               - (if x == self then AmountOf(coins.value, d) else 0)
                                               + (if x == m.send.value.to.addr then AmountOf(coins.value, d) else 0)
  {
    hide Transfer, Send, Balance, FromWasm, Later;
    var msg := ConvertSendMsg(env, m.send.value.from, m.send.value.to, m.send.value.amount);
    if msg.Ok? {
      var c := msg.value;
      assert c.from in GetSigners(c);
      TransferMoves(env, w, c.from, c.to, c.amount);
      var r := HandleSdkMessage(env, w, self, c);
      assert DispatchMessage(env, w, self, m) == r;
      if r.out.Ok? {
        assert r == Handle(env, w, c) == Transfer(env, w, c);
        SendMoves(env.denomOk, w.bank, c.from, c.to, c.amount, x, d);
      }
    }
  }

  /** What a multisend signed by a contract does to every balance: the contract pays all inputs. */
  lemma MultiSendMessageMoves(env: Env, w: World, self: address, ins: seq<Party>, outs: seq<Party>, x: bytes, d: Denom)
    requires w.meter.Metered?
    ensures var r := HandleSdkMessage(env, w, self, BankMultiSend(ins, outs));
            r.out.Ok? ==> Balance(r.w.bank, x, d) == Balance(w.bank, x, d) - (if x == self then SumOf(ins, d) else 0) + ShareOf(outs, x, d)
  {
    hide MultiSend, Send, Balance, Later;
    var m := BankMultiSend(ins, outs);
    if Authorised(self, m) && Settle(env, w.bank, m).Ok? {
      MultiSendMoves(env.denomOk, w.bank, ins, outs, x, d);
      forall p | p in ins ensures p.addr == self {
        var i :| 0 <= i < |ins| && ins[i] == p;
        assert GetSigners(m)[i] in GetSigners(m);
      }
      OnePayer(ins, self, x, d);
      assert HandleSdkMessage(env, w, self, m).out.Ok? ==> HandleSdkMessage(env, w, self, m).w.bank == Settle(env, w.bank, m).value;
    }
  }

  lemma {:induction false} OnePayer(ins: seq<Party>, self: bytes, x: bytes, d: Denom)
    requires forall p :: p in ins ==> p.addr == self
    ensures ShareOf(ins, x, d) == if x == self then SumOf(ins, d) else 0
  {
    if ins != [] {
      assert ins[0] in ins;
      OnePayer(ins[1..], self, x, d);
    }
  }

  // ------------------------------------------------------------------ key by key

  /** What may happen to one key of the flat store: nothing, unless it is a counter, an entry that
      is new, or lies under the prefix of a contract that ran. */
  ghost predicate MayChange(w: World, v: World, key: bytes) {
    || key == KEY_LAST_CODE_ID || key == KEY_LAST_INSTANCE_ID
    || (exists id: uint64 :: key == GetCodeKey(id) && id !in w.reg.codes && id in v.reg.codes)
    || (exists a: address :: key == GetContractAddressKey(a) && a !in w.reg.contracts && a in v.reg.contracts)
    || (exists a: address, k :: key == GetContractStorePrefixKey(a) + k && a in Actors(v.log, |w.log|))
  }

  lemma KeyByKey(kv: Flat, later: Flat, w: World, v: World, key: bytes)
    requires Represents(kv, w.reg) && Represents(later, v.reg) && Fetch(later, key) != Fetch(kv, key)
    requires Keeps(w.reg, v.reg)
    requires forall a: address :: SubStore(v.reg, a) != SubStore(w.reg, a) ==> a in Actors(v.log, |w.log|)
    ensures MayChange(w, v, key)
  {
    hide Actors, SubStore;
    assert key in kv || key in later;
    var s := Decode(key).value;
    DecodedKeysEncode(key);
    assert Fetch(kv, Encode(s)) == Lookup(w.reg, s) && Fetch(later, Encode(s)) == Lookup(v.reg, s);
    match s {
      case Data(owner, k) =>
        assert key == GetContractStorePrefixKey(owner) + k;
      case Contract(addr) =>
        assert |addr| == 20 && addr !in w.reg.contracts && addr in v.reg.contracts;
        var a: address := addr;
        assert key == GetContractAddressKey(a);
      case Code(id) =>
        assert key == GetCodeKey(id);
      case _ =>
    }
  }

  /** The flat store before and after any Execute, over all keys: those there before and those
      that appear. */
  lemma ExecuteKeyByKey(env: Env, kv: Flat, later: Flat, w: World, addr: bytes, caller: bytes, msg: bytes, coins: seq<Coin>, key: bytes)
    requires w.meter.Metered? && Inv(env, w) && Room(w, Execute(env, w, addr, caller, msg, coins).w)
    requires Represents(kv, w.reg) && Represents(later, Execute(env, w, addr, caller, msg, coins).w.reg)
    ensures Fetch(later, key) != Fetch(kv, key) ==> MayChange(w, Execute(env, w, addr, caller, msg, coins).w, key)
  {
    hide Execute, Inv, Room, Actors, SubStore, MayChange, Represents, Keeps;
    var v := Execute(env, w, addr, caller, msg, coins).w;
    ExecuteKeepsRegistry(env, w, addr, caller, msg, coins);
    forall a: address ensures SubStore(v.reg, a) != SubStore(w.reg, a) ==> a in Actors(v.log, |w.log|) {
      ExecuteIsolatesStores(env, w, addr, caller, msg, coins, a);
    }
    if Fetch(later, key) != Fetch(kv, key) {
      KeyByKey(kv, later, w, v, key);
    }
  }

  lemma InstantiateKeyByKey(env: Env, kv: Flat, later: Flat, w: World, codeID: uint64, creator: bytes, initMsg: bytes, deposit: seq<Coin>, key: bytes)
    requires w.meter.Metered? && Inv(env, w) && Room(w, Instantiate(env, w, codeID, creator, initMsg, deposit).w)
    requires Represents(kv, w.reg) && Represents(later, Instantiate(env, w, codeID, creator, initMsg, deposit).w.reg)
    ensures Fetch(later, key) != Fetch(kv, key) ==> MayChange(w, Instantiate(env, w, codeID, creator, initMsg, deposit).w, key)
  {
    hide Instantiate, Inv, Room, Actors, SubStore, MayChange, Represents, Keeps;
    var v := Instantiate(env, w, codeID, creator, initMsg, deposit).w;
    InstantiateKeepsRegistry(env, w, codeID, creator, initMsg, deposit);
    forall a: address ensures SubStore(v.reg, a) != SubStore(w.reg, a) ==> a in Actors(v.log, |w.log|) {
      InstantiateIsolatesStores(env, w, codeID, creator, initMsg, deposit, a);
    }
    if Fetch(later, key) != Fetch(kv, key) {
      KeyByKey(kv, later, w, v, key);
    }
  }

  // ------------------------------------------------------------------ the last write

  /** While a new contract's messages are dispatched, nothing registers its address: the entry
      written at the end never replaces one. */
  lemma AddressStaysFree(env: Env, w: World, codeID: uint64, creator: bytes, initMsg: bytes, deposit: seq<Coin>)
    requires w.meter.Metered? && ContractsBacked(w)
    ensures var head := InstantiateHead(env, w, codeID, creator, initMsg, deposit);
            head.out.Ok? ==>
              && head.out.value.0 !in w.reg.contracts
              && head.out.value.0 !in DispatchMessages(env, head.w, head.out.value.0, head.out.value.1.messages).w.reg.contracts
  {
    hide InstantiateHead, Run, Encode, Step, Sound, Untouched;
    var head := InstantiateHead(env, w, codeID, creator, initMsg, deposit);
    LaunchIsQuiet(env, w, codeID, creator, initMsg, deposit);
    if head.out.Ok? {
      var (addr, res) := head.out.value;
      var ts := Dispatches(addr, res.messages);
      RunLeavesUnborn(env, head.w, ts, addr);
      DispatchesRefine(env, head.w, addr, res.messages, []);
      assert ts + [] == ts;
      DispatchesEnd(env, DispatchMessages(env, head.w, addr, res.messages));
    }
  }
}
