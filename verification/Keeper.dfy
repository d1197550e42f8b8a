/** The keeper and its handler as they work on the flat store, in place. Each method is proved to
    leave the store representing exactly what the operation of the same name in Engine says. */
module Keepers {
  import opened Bytes
  import opened Outcome
  import opened Layout
  import opened Coins
  import opened Bank
  import opened Gas
  import opened Types
  import opened Engine

  class Keeper {
    const env: Env
    var kv: Flat
    var vm: map<bytes, bytes>
    var bank: Ledger
    var meter: Meter
    ghost var reg: Registry
    ghost var log: seq<Event>

    ghost predicate Valid()
      reads this
    {
      Represents(kv, reg)
    }

    /** The world this keeper stands for. */
    ghost function Abs(): World
      reads this
    {
      World(reg, vm, bank, meter, log)
    }

    /** An empty wasm store on top of existing accounts. */
    constructor (env: Env, bank: Ledger)
      ensures Valid() && this.env == env
      ensures Abs() == World(EMPTY, map[], bank, Unmetered, [])
    {
      this.env := env;
      this.kv := map[];
      this.vm := map[];
      this.bank := bank;
      this.meter := Unmetered;
      this.reg := EMPTY;
      this.log := [];
    }

    // ---------------------------------------------------------------- metered store and bank

    method ConsumeGas(amount: nat, what: Charged) returns (out: Out<()>)
      requires Valid()
      modifies this`meter
      ensures Valid()
      ensures Res(Abs(), out) == Charge(old(Abs()), amount, what)
    {
      match meter {
        case Unmetered =>
          return Ok(());
        case Metered(limit, consumed) =>
          meter := Metered(limit, consumed + amount);
          if consumed + amount > limit {
            return Panicked(OutOfGas(what));
          }
          return Ok(());
      }
    }

    method Get(key: bytes, ghost slot: Slot) returns (out: Out<Option<Value>>)
      requires Valid() && key == Encode(slot)
      modifies this`meter
      ensures Valid()
      ensures Res(Abs(), out) == Read(env, old(Abs()), slot)
    {
      var bz := Fetch(kv, key);
      var _ :- ConsumeGas(env.readCost(key, bz), StoreAccess);
      return Ok(bz);
    }

    method Set(key: bytes, value: Value, ghost slot: Slot) returns (out: Out<()>)
      requires Valid() && key == Encode(slot) && Fits(slot, value)
      modifies this`meter, this`kv, this`reg
      ensures Valid()
      ensures Res(Abs(), out) == Write(env, old(Abs()), slot, value)
    {
      var _ :- ConsumeGas(env.writeCost(key, value), StoreAccess);
      PutSimulates(kv, reg, slot, value);
      kv := kv[key := value];
      reg := Put(reg, slot, value);
      return Ok(());
    }

    method GetAccount(addr: bytes) returns (out: Out<Option<Balances>>)
      requires Valid()
      modifies this`meter
      ensures Valid()
      ensures Res(Abs(), out) == Engine.GetAccount(env, old(Abs()), addr)
    {
      var _ :- ConsumeGas(env.accountCost(addr), StoreAccess);
      return Ok(if addr in bank then Some(bank[addr]) else None);
    }

    method Transfer(m: SdkMsg) returns (out: Out<()>)
      requires Valid() && (m.BankSend? || m.BankMultiSend?)
      modifies this`meter, this`bank
      ensures Valid()
      ensures Res(Abs(), out) == Engine.Transfer(env, old(Abs()), m)
    {
      hide Send, MultiSend;
      var _ :- ConsumeGas(env.bankCost(m), StoreAccess);
      var settled := Settle(env, bank, m);
      if settled.Ok? {
        bank := settled.value;
        return Ok(());
      }
      return settled.PropagateFailure();
    }

    // ---------------------------------------------------------------- codes

    method AutoIncrementID(lastIDKey: bytes, ghost slot: Slot) returns (out: Out<uint64>)
      requires Valid() && lastIDKey == Encode(slot) && (slot.LastCode? || slot.LastInstance?)
      modifies this`meter, this`kv, this`reg
      ensures Valid()
      ensures Res(Abs(), out) == Engine.AutoIncrementID(env, old(Abs()), slot)
    {
      hide Put, Represents;
      var bz :- Get(lastIDKey, slot);
      var id: uint64 := if bz.Some? then BigEndianToUint64(bz.value.raw) else 1;
      var _ :- Set(lastIDKey, Counter(Uint64ToBigEndian((id + 1) % TWO_64)), slot);
      return Ok(id);
    }

    method Create(creator: bytes, wasmCode: bytes, source: string, builder: string) returns (out: Out<uint64>)
      requires Valid()
      modifies this`meter, this`kv, this`reg, this`vm
      ensures Valid()
      ensures Res(Abs(), out) == Engine.Create(env, old(Abs()), creator, wasmCode, source, builder)
    {
      hide Put, Represents, Engine.AutoIncrementID, Compiles, Uncompress;
      var code := Uncompress(env, wasmCode);
      if code.None? || !Compiles(env, code.value) {
        return Err(CreateFailed);
      }
      var codeHash := env.codeHash(code.value);
      vm := vm[codeHash := code.value];
      var codeID :- AutoIncrementID(KEY_LAST_CODE_ID, LastCode);
      var _ :- Set(GetCodeKey(codeID), CodeValue(CodeInfo(codeHash, creator, source, builder)), Code(codeID));
      return Ok(codeID);
    }

    // ---------------------------------------------------------------- running a contract

    /** One write through a contract's prefix store. */
    method ApplyWrite(self: address, u: Update)
      requires Valid()
      modifies this`kv, this`reg
      ensures Valid()
      ensures reg == old(reg).(data := old(reg).data[self := ApplyUpdates(SubStore(old(reg), self), [u])])
      ensures forall k: bytes :: !HasPrefix(k, GetContractStorePrefixKey(self)) ==> Fetch(kv, k) == Fetch(old(kv), k)
    {
      hide Represents;
      assert ApplyUpdates(SubStore(reg, self), [u][..0]) == SubStore(reg, self);
      var key := GetContractStorePrefixKey(self) + u.key;
      assert HasPrefix(key, GetContractStorePrefixKey(self)) && key == Encode(Data(self, u.key));
      match u {
        case Set(k, value) =>
          PutSimulates(kv, reg, Data(self, k), Raw(value));
          kv := kv[key := Raw(value)];
          reg := Put(reg, Data(self, k), Raw(value));
        case Delete(k) =>
          DropSimulates(kv, reg, self, k);
          kv := kv - {key};
          reg := Drop(reg, self, k);
      }
    }

    /** A contract's writes go through its prefix store, one at a time, and reach no other key. */
    method ApplyWrites(self: address, updates: seq<Update>)
      requires Valid()
      modifies this`kv, this`reg
      ensures Valid()
      ensures reg == old(reg).(data := old(reg).data[self := ApplyUpdates(SubStore(old(reg), self), updates)])
      ensures forall k: bytes :: !HasPrefix(k, GetContractStorePrefixKey(self)) ==> Fetch(kv, k) == Fetch(old(kv), k)
    {
      hide Represents, HasPrefix, Fetch, SubStore;
      ghost var sub, reg0 := SubStore(reg, self), reg;
      reg := reg.(data := reg.data[self := sub]);
      TouchSimulates(kv, reg0, self);
      for i := 0 to |updates|
        invariant Valid()
        invariant reg == reg0.(data := reg0.data[self := ApplyUpdates(sub, updates[..i])])
        invariant forall k: bytes :: !HasPrefix(k, GetContractStorePrefixKey(self)) ==> Fetch(kv, k) == Fetch(old(kv), k)
      {
        assert updates[..i + 1][..i] == updates[..i];
        DataFrame(reg0, self, ApplyUpdates(sub, updates[..i]));
        ApplyWrite(self, updates[i]);
      }
      assert updates[..|updates|] == updates;
    }

    method Invoke(entry: Entry, codeHash: bytes, self: address, signer: bytes, coins: seq<Coin>,
                       balance: Balances, msg: bytes) returns (out: Out<RunResult>)
      requires Valid() && meter.Metered?
      modifies this`meter, this`kv, this`reg, this`log
      ensures Valid()
      ensures Res(Abs(), out) == Engine.Invoke(env, old(Abs()), entry, codeHash, self, signer, coins, balance, msg)
    {
      hide Represents, ApplyUpdates, GasForContract, ChargeFor;
      var sentFunds := NewWasmCoins(coins);
      var store := RawStore(PrefixStore(kv, GetContractStorePrefixKey(self)));
      DataView(kv, reg, self);
      DataUnderAddress(reg, self);
      var gas := GasForContract(meter.limit, meter.consumed);
      var inp := RunInput(entry, codeHash, signer, sentFunds, self, balance, msg, store, gas);
      var run := env.run(inp);
      ApplyWrites(self, run.updates);
      log := log + [Ran(self)];
      var _ :- ConsumeGas(run.storageGas, StoreAccess);
      if run.result.None? {
        return Err(if entry.OnInit? then InstantiateFailed else ExecuteFailed);
      }
      var res := run.result.value;
      log := log + [Billed(inp, res.gasUsed, ChargeFor(res.gasUsed))];
      var _ :- ConsumeGas(ChargeFor(res.gasUsed), WasmContract);
      return Ok(res);
    }

    method ContractInstance(addr: bytes) returns (out: Out<CodeInfo>)
      requires Valid()
      modifies this`meter
      ensures Valid()
      ensures Res(Abs(), out) == Engine.ContractInstance(env, old(Abs()), addr)
    {
      hide Represents;
      var contract :- Get(GetContractAddressKey(addr), Contract(addr));
      if contract.None? {
        return Err(ContractNotFound);
      }
      var codeID := contract.value.contract.codeID;
      var code :- Get(GetCodeKey(codeID), Code(codeID));
      if code.None? {
        return Err(CodeNotFound);
      }
      return Ok(code.value.code);
    }

    method ExecuteHead(addr: bytes, caller: bytes, msg: bytes, coins: seq<Coin>) returns (out: Out<RunResult>)
      requires Valid() && meter.Metered?
      modifies this
      ensures Valid()
      ensures Res(Abs(), out) == Engine.ExecuteHead(env, old(Abs()), addr, caller, msg, coins)
    {
      hide Represents, Engine.ContractInstance, Engine.Transfer, Engine.GetAccount, Engine.Invoke;
      log := log + [Called(addr)];
      var code :- ContractInstance(addr);
      var _ :- Transfer(BankSend(caller, addr, coins));
      var account :- GetAccount(addr);
      if account.None? {
        return Panicked(NilAccount);
      }
      out := Invoke(OnHandle, code.hash, addr, caller, coins, account.value, msg);
    }

    method GenerateContractAddress(codeID: uint64) returns (out: Out<address>)
      requires Valid()
      modifies this
      ensures Valid()
      ensures Res(Abs(), out) == Engine.GenerateContractAddress(env, old(Abs()), codeID)
    {
      hide Represents, Engine.AutoIncrementID;
      var instanceID :- AutoIncrementID(KEY_LAST_INSTANCE_ID, LastInstance);
      log := log + [Generated(codeID, instanceID)];
      return Ok(AddrFromUint64(env, ContractID(codeID, instanceID)));
    }

    method SetUp(addr: address, codeID: uint64, creator: bytes, initMsg: bytes, deposit: seq<Coin>)
      returns (out: Out<RunResult>)
      requires Valid() && meter.Metered?
      modifies this
      ensures Valid()
      ensures Res(Abs(), out) == Engine.SetUp(env, old(Abs()), addr, codeID, creator, initMsg, deposit)
    {
      hide Represents, Engine.Transfer, Engine.GetAccount, Engine.Invoke;
      var _ :- Transfer(BankSend(creator, addr, deposit));
      var account :- GetAccount(addr);
      var code :- Get(GetCodeKey(codeID), Code(codeID));
      if code.None? {
        return Err(CodeNotFound);
      }
      if account.None? {
        return Panicked(NilAccount);
      }
      out := Invoke(OnInit, code.value.code.hash, addr, creator, deposit, account.value, initMsg);
    }

    method InstantiateHead(codeID: uint64, creator: bytes, initMsg: bytes, deposit: seq<Coin>)
      returns (out: Out<(address, RunResult)>)
      requires Valid() && meter.Metered?
      modifies this
      ensures Valid()
      ensures Res(Abs(), out) == Engine.InstantiateHead(env, old(Abs()), codeID, creator, initMsg, deposit)
    {
      hide Represents, Engine.GenerateContractAddress, Engine.GetAccount, Engine.SetUp;
      var addr :- GenerateContractAddress(codeID);
      var existing :- GetAccount(addr);
      if existing.Some? {
        return Err(AccountExists);
      }
      var res :- SetUp(addr, codeID, creator, initMsg, deposit);
      return Ok((addr, res));
    }

    // ---------------------------------------------------------------- the re-entrant keeper

    method Execute(addr: bytes, caller: bytes, msg: bytes, coins: seq<Coin>) returns (out: Out<RunResult>)
      requires Valid() && meter.Metered?
      modifies this
      ensures Valid()
      ensures Res(Abs(), out) == Engine.Execute(env, old(Abs()), addr, caller, msg, coins)
      decreases GasLeft(Abs()), 0, 0
    {
      hide Represents, Engine.ExecuteHead;
      var res :- ExecuteHead(addr, caller, msg, coins);
      var _ :- DispatchMessages(addr, res.messages);
      return Ok(res);
    }

    method Instantiate(codeID: uint64, creator: bytes, initMsg: bytes, deposit: seq<Coin>) returns (out: Out<address>)
      requires Valid() && meter.Metered?
      modifies this
      ensures Valid()
      ensures Res(Abs(), out) == Engine.Instantiate(env, old(Abs()), codeID, creator, initMsg, deposit)
      decreases GasLeft(Abs()), 0, 0
    {
      hide Represents, Engine.InstantiateHead;
      var head :- InstantiateHead(codeID, creator, initMsg, deposit);
      var (addr, res) := head;
      var _ :- DispatchMessages(addr, res.messages);
      var instance := ContractInfo(codeID, creator, initMsg);
      var _ :- Set(GetContractAddressKey(addr), ContractValue(instance), Contract(addr));
      return Ok(addr);
    }

    method DispatchMessages(self: address, msgs: seq<CosmosMsg>) returns (out: Out<()>)
      requires Valid() && meter.Metered?
      modifies this
      ensures Valid()
      ensures Res(Abs(), out) == Engine.DispatchMessages(env, old(Abs()), self, msgs)
      decreases GasLeft(Abs()), 5, 0
    {
      hide Represents;
      for i := 0 to |msgs|
        invariant Valid() && meter.Metered? && GasLeft(Abs()) <= old(GasLeft(Abs()))
        invariant Engine.DispatchMessages(env, Abs(), self, msgs[i..]) == Engine.DispatchMessages(env, old(Abs()), self, msgs)
      {
        assert msgs[i..][1..] == msgs[i + 1..];
        var _ :- DispatchMessage(self, msgs[i]);
      }
      return Ok(());
    }

    method DispatchMessage(self: address, m: CosmosMsg) returns (out: Out<()>)
      requires Valid() && meter.Metered?
      modifies this
      ensures Valid()
      ensures Res(Abs(), out) == Engine.DispatchMessage(env, old(Abs()), self, m)
      decreases GasLeft(Abs()), 4, 0
    {
      hide Represents;
      if m.send.Some? {
        out := SendTokens(self, m.send.value.from, m.send.value.to, m.send.value.amount);
      } else if m.contract.Some? {
        var c := m.contract.value;
        if c.contractAddr.Malformed? {
          return Err(InvalidAddress);
        }
        var _ :- SendTokens(self, Parsed(self), c.contractAddr, c.send);
        var _ :- Execute(c.contractAddr.addr, self, c.msg, []);
        return Ok(());
      } else if m.opaque_.Some? {
        if m.opaque_.value.None? {
          return Err(UndecodableMsg);
        }
        out := HandleSdkMessage(self, m.opaque_.value.value);
      } else {
        return Panicked(UnknownCosmosMsg);
      }
    }

    method SendTokens(signer: address, origin: Text, target: Text, tokens: seq<WasmCoin>) returns (out: Out<()>)
      requires Valid() && meter.Metered?
      modifies this
      ensures Valid()
      ensures Res(Abs(), out) == Engine.SendTokens(env, old(Abs()), signer, origin, target, tokens)
      decreases GasLeft(Abs()), 3, 0
    {
      hide Represents;
      if |tokens| == 0 {
        return Ok(());
      }
      if origin.Malformed? || target.Malformed? {
        return Err(InvalidAddress);
      }
      var toSend := ParseCoins(env.otherForms, tokens);
      if toSend.None? {
        return Err(InvalidCoins);
      }
      out := HandleSdkMessage(signer, BankSend(origin.addr, target.addr, toSend.value));
    }

    method HandleSdkMessage(self: address, m: SdkMsg) returns (out: Out<()>)
      requires Valid() && meter.Metered?
      modifies this
      ensures Valid()
      ensures Res(Abs(), out) == Engine.HandleSdkMessage(env, old(Abs()), self, m)
      decreases GasLeft(Abs()), 2, 0
    {
      hide Represents;
      var signers := GetSigners(m);
      for i := 0 to |signers|
        invariant Abs() == old(Abs()) && Valid()
        invariant forall j :: 0 <= j < i ==> signers[j] == self
      {
        if signers[i] != self {
          assert signers[i] in signers;
          return Err(Unauthorized);
        }
      }
      out := Handle(m);
    }

    method Handle(m: SdkMsg) returns (out: Out<()>)
      requires Valid() && meter.Metered?
      modifies this
      ensures Valid()
      ensures Res(Abs(), out) == Engine.Handle(env, old(Abs()), m)
      decreases GasLeft(Abs()), 1, 0
    {
      hide Represents, Engine.Create, Engine.Transfer;
      match m {
        case StoreCode(sender, code, source, builder) =>
          if !env.storeCodeOk(m) {
            return Err(InvalidMsg);
          }
          var _ :- Create(sender, code, source, builder);
          return Ok(());
        case InstantiateContract(sender, codeID, initMsg, funds) =>
          var _ :- Instantiate(codeID, sender, initMsg, funds);
          return Ok(());
        case ExecuteContract(sender, contract, msg, funds) =>
          var _ :- Execute(contract, sender, msg, funds);
          return Ok(());
        case Other(_) =>
          return Err(UnknownRequest);
        case _ =>
          if env.bankRefuses(m) {
            return Err(BankRefused);
          }
          out := Transfer(m);
      }
    }
  }

  /** Giving a contract without data an explicit empty store changes nothing. */
  lemma TouchSimulates(kv: Flat, reg: Registry, a: address)
    requires Represents(kv, reg)
    ensures Represents(kv, reg.(data := reg.data[a := SubStore(reg, a)]))
  {
    var touched := reg.(data := reg.data[a := SubStore(reg, a)]);
    forall s: Slot ensures Fetch(kv, Encode(s)) == Lookup(touched, s) {
      assert Lookup(touched, s) == Lookup(reg, s);
    }
  }
}
