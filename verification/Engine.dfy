/** The keeper's operations as functions of the world: keeper.go and handler.go.
    Re-entrant execution is mutual recursion on (gas left, place in the dispatch chain). */
module Engine {
  import opened Bytes
  import opened Outcome
  import opened Layout
  import opened Coins
  import opened Bank
  import opened Gas
  import opened Types

  // ------------------------------------------------------------------ metered store and bank

  /** Meters panic once the limit is passed. */
  function Charge(w: World, amount: nat, what: Charged): (r: Res<()>)
    ensures Later(w, r.w) && GasLeft(r.w) <= GasLeft(w)
    ensures r.out.Ok? && w.meter.Metered? ==> GasLeft(r.w) + amount == GasLeft(w)
  {
    match w.meter
    case Unmetered => Res(w, Ok(()))
    case Metered(limit, consumed) =>
      var v := w.(meter := Metered(limit, consumed + amount));
      if consumed + amount > limit then Res(v, Panicked(OutOfGas(what))) else Res(v, Ok(()))
  }

  function Read(env: Env, w: World, s: Slot): (r: Res<Option<Value>>)
    ensures Later(w, r.w) && GasLeft(r.w) <= GasLeft(w)
    ensures r.out.Ok? && w.meter.Metered? ==> GasLeft(r.w) < GasLeft(w)
  {
    var (v, _) :- Charge(w, env.readCost(Encode(s), Lookup(w.reg, s)), StoreAccess);
    Res(v, Ok(Lookup(w.reg, s)))
  }

  function Write(env: Env, w: World, s: Slot, value: Value): (r: Res<()>)
    requires Fits(s, value)
    ensures Later(w, r.w) && GasLeft(r.w) <= GasLeft(w)
    ensures r.out.Ok? && w.meter.Metered? ==> GasLeft(r.w) < GasLeft(w)
  {
    var (v, _) :- Charge(w, env.writeCost(Encode(s), value), StoreAccess);
    Res(v.(reg := Put(v.reg, s, value)), Ok(()))
  }

  /** GetAccount: the coins of an account, if there is one. */
  function GetAccount(env: Env, w: World, a: bytes): (r: Res<Option<Balances>>)
    ensures Later(w, r.w) && GasLeft(r.w) <= GasLeft(w)
  {
    var (v, _) :- Charge(w, env.accountCost(a), StoreAccess);
    Res(v, Ok(if a in v.bank then Some(v.bank[a]) else None))
  }

  /** Moves coins through the bank keeper as `m` asks. */
  function Transfer(env: Env, w: World, m: SdkMsg): (r: Res<()>)
    requires m.BankSend? || m.BankMultiSend?
    ensures Later(w, r.w) && GasLeft(r.w) <= GasLeft(w)
  {
    var (v, _) :- Charge(w, env.bankCost(m), StoreAccess);
    match Settle(env, v.bank, m)
    case Ok(bank) => Res(v.(bank := bank), Ok(()))
    case Err(e) => Res(v, Err(e))
    case Panicked(p) => Res(v, Panicked(p))
  }

  function Settle(env: Env, l: Ledger, m: SdkMsg): Out<Ledger>
    requires m.BankSend? || m.BankMultiSend?
  {
    match m
    case BankSend(from, to, amount) => Send(env.denomOk, l, from, to, amount)
    case BankMultiSend(ins, outs) => MultiSend(env.denomOk, l, ins, outs)
  }

  // ------------------------------------------------------------------ codes

  /** autoIncrementID: hands out the stored id (1 at first) and stores its wrapped successor. */
  function AutoIncrementID(env: Env, w: World, s: Slot): (r: Res<uint64>)
    requires s.LastCode? || s.LastInstance?
    ensures Later(w, r.w) && GasLeft(r.w) <= GasLeft(w)
    ensures r.out.Ok? && w.meter.Metered? ==> GasLeft(r.w) < GasLeft(w)
  {
    var (w1, bz) :- Read(env, w, s);
    var id: uint64 := if bz.Some? then BigEndianToUint64(bz.value.raw) else 1;
    var (w2, _) :- Write(env, w1, s, Counter(Uint64ToBigEndian((id + 1) % TWO_64)));
    Res(w2, Ok(id))
  }

  function Create(env: Env, w: World, creator: bytes, wasmCode: bytes, source: string, builder: string): (r: Res<uint64>)
    ensures Later(w, r.w) && GasLeft(r.w) <= GasLeft(w)
  {
    match Uncompress(env, wasmCode)
    case None => Res(w, Err(CreateFailed))
    case Some(code) =>
      if !Compiles(env, code) then Res(w, Err(CreateFailed))
      else
        var hash := env.codeHash(code);
        var (w1, id) :- AutoIncrementID(env, w.(vm := w.vm[hash := code]), LastCode);
        var (w2, _) :- Write(env, w1, Code(id), CodeValue(CodeInfo(hash, creator, source, builder)));
        Res(w2, Ok(id))
  }

  // ------------------------------------------------------------------ running a contract

  /** `codeID<<32 + instanceID` in uint64 arithmetic. */
  function ContractID(codeID: uint64, instanceID: uint64): uint64 {
    (codeID * 0x1_0000_0000 + instanceID) % TWO_64
  }

  function AddrFromUint64(env: Env, id: uint64): address {
    env.addressHash(AddressBuffer(id))
  }

  /** Builds the parameters, runs the code on the contract's own store, and charges for it. A
      contract's writes and its storage gas stay even when it reports an error. */
  function Invoke(env: Env, w: World, entry: Entry, codeHash: bytes, self: address, signer: bytes,
                  coins: seq<Coin>, balance: Balances, msg: bytes): (r: Res<RunResult>)
    requires w.meter.Metered?
    ensures Later(w, r.w) && GasLeft(r.w) <= GasLeft(w)
  {
    var gas := GasForContract(w.meter.limit, w.meter.consumed);
    var store := SubStore(w.reg, self);
    var inp := RunInput(entry, codeHash, signer, ToWasm(coins), self, balance, msg, store, gas);
    var run := env.run(inp);
    var reg := w.reg.(data := w.reg.data[self := ApplyUpdates(store, run.updates)]);
    var (w1, _) :- Charge(Log(w.(reg := reg), Ran(self)), run.storageGas, StoreAccess);
    match run.result
    case None => Res(w1, Err(if entry.OnInit? then InstantiateFailed else ExecuteFailed))
    case Some(res) =>
      var bill := ChargeFor(res.gasUsed);
      var (w2, _) :- Charge(Log(w1, Billed(inp, res.gasUsed, bill)), bill, WasmContract);
      Res(w2, Ok(res))
  }

  function ContractInstance(env: Env, w: World, addr: bytes): (r: Res<CodeInfo>)
    ensures Later(w, r.w) && GasLeft(r.w) <= GasLeft(w)
    ensures r.out.Ok? && w.meter.Metered? ==> GasLeft(r.w) < GasLeft(w)
    ensures r.out.Ok? ==> |addr| == 20 && addr in w.reg.contracts
  {
    var (w1, contract) :- Read(env, w, Contract(addr));
    if contract.None? then Res(w1, Err(ContractNotFound))
    else
      var (w2, code) :- Read(env, w1, Code(contract.value.contract.codeID));
      if code.None? then Res(w2, Err(CodeNotFound)) else Res(w2, Ok(code.value.code))
  }

  /** Execute up to the point where it dispatches the contract's messages. */
  function ExecuteHead(env: Env, w: World, addr: bytes, caller: bytes, msg: bytes, coins: seq<Coin>): (r: Res<RunResult>)
    requires w.meter.Metered?
    ensures Later(w, r.w) && GasLeft(r.w) <= GasLeft(w)
    ensures r.out.Ok? ==> GasLeft(r.w) < GasLeft(w) && |addr| == 20
  {
    hide ContractInstance, Transfer, GetAccount, Invoke;
    var (w1, code) :- ContractInstance(env, Log(w, Called(addr)), addr);
    var (w2, _) :- Transfer(env, w1, BankSend(caller, addr, coins));
    var (w3, account) :- GetAccount(env, w2, addr);
    if account.None? then Res(w3, Panicked(NilAccount))
    else Invoke(env, w3, OnHandle, code.hash, addr, caller, coins, account.value, msg)
  }

  /** generateContractAddress. */
  function GenerateContractAddress(env: Env, w: World, codeID: uint64): (r: Res<address>)
    ensures Later(w, r.w) && GasLeft(r.w) <= GasLeft(w)
    ensures r.out.Ok? && w.meter.Metered? ==> GasLeft(r.w) < GasLeft(w)
  {
    var (w1, instanceID) :- AutoIncrementID(env, w, LastInstance);
    Res(Log(w1, Generated(codeID, instanceID)), Ok(AddrFromUint64(env, ContractID(codeID, instanceID))))
  }

  /** Funds a new contract's account and runs its init code. */
  function SetUp(env: Env, w: World, addr: address, codeID: uint64, creator: bytes, initMsg: bytes, deposit: seq<Coin>)
    : (r: Res<RunResult>)
    requires w.meter.Metered?
    ensures Later(w, r.w) && GasLeft(r.w) <= GasLeft(w)
  {
    var (w1, _) :- Transfer(env, w, BankSend(creator, addr, deposit));
    var (w2, account) :- GetAccount(env, w1, addr);
    var (w3, code) :- Read(env, w2, Code(codeID));
    if code.None? then Res(w3, Err(CodeNotFound))
    else if account.None? then Res(w3, Panicked(NilAccount))
    else Invoke(env, w3, OnInit, code.value.code.hash, addr, creator, deposit, account.value, initMsg)
  }

  /** Instantiate up to the point where it dispatches the contract's messages. */
  function InstantiateHead(env: Env, w: World, codeID: uint64, creator: bytes, initMsg: bytes, deposit: seq<Coin>)
    : (r: Res<(address, RunResult)>)
    requires w.meter.Metered?
    ensures Later(w, r.w) && GasLeft(r.w) <= GasLeft(w)
    ensures r.out.Ok? ==> GasLeft(r.w) < GasLeft(w)
  {
    var (w1, addr) :- GenerateContractAddress(env, w, codeID);
    var (w2, existing) :- GetAccount(env, w1, addr);
    if existing.Some? then Res(w2, Err(AccountExists))
    else
      var (w3, res) :- SetUp(env, w2, addr, codeID, creator, initMsg, deposit);
      Res(w3, Ok((addr, res)))
  }

  // ------------------------------------------------------------------ the re-entrant keeper

  function Execute(env: Env, w: World, addr: bytes, caller: bytes, msg: bytes, coins: seq<Coin>): (r: Res<RunResult>)
    requires w.meter.Metered?
    ensures Later(w, r.w) && GasLeft(r.w) <= GasLeft(w)
    decreases GasLeft(w), 0, 0
  {
    var (w1, res) :- ExecuteHead(env, w, addr, caller, msg, coins);
    var (w2, _) :- DispatchMessages(env, w1, addr, res.messages);
    Res(w2, Ok(res))
  }

  function Instantiate(env: Env, w: World, codeID: uint64, creator: bytes, initMsg: bytes, deposit: seq<Coin>): (r: Res<address>)
    requires w.meter.Metered?
    ensures Later(w, r.w) && GasLeft(r.w) <= GasLeft(w)
    decreases GasLeft(w), 0, 0
  {
    var (w1, head) :- InstantiateHead(env, w, codeID, creator, initMsg, deposit);
    var (addr, res) := head;
    var (w2, _) :- DispatchMessages(env, w1, addr, res.messages);
    var (w3, _) :- Write(env, w2, Contract(addr), ContractValue(ContractInfo(codeID, creator, initMsg)));
    Res(w3, Ok(addr))
  }

  function DispatchMessages(env: Env, w: World, self: address, msgs: seq<CosmosMsg>): (r: Res<()>)
    requires w.meter.Metered?
    ensures Later(w, r.w) && GasLeft(r.w) <= GasLeft(w)
    decreases GasLeft(w), 5, |msgs|
  {
    if msgs == [] then Res(w, Ok(()))
    else
      var (w1, _) :- DispatchMessage(env, w, self, msgs[0]);
      DispatchMessages(env, w1, self, msgs[1..])
  }

  function DispatchMessage(env: Env, w: World, self: address, m: CosmosMsg): (r: Res<()>)
    requires w.meter.Metered?
    ensures Later(w, r.w) && GasLeft(r.w) <= GasLeft(w)
    decreases GasLeft(w), 4, 0
  {
    if m.send.Some? then
      SendTokens(env, w, self, m.send.value.from, m.send.value.to, m.send.value.amount)
    else if m.contract.Some? then
      var c := m.contract.value;
      if c.contractAddr.Malformed? then Res(w, Err(InvalidAddress))
      else
        var (w1, _) :- SendTokens(env, w, self, Parsed(self), c.contractAddr, c.send);
        var (w2, _) :- Execute(env, w1, c.contractAddr.addr, self, c.msg, []);
        Res(w2, Ok(()))
    else if m.opaque_.Some? then
      if m.opaque_.value.None? then Res(w, Err(UndecodableMsg))
      else HandleSdkMessage(env, w, self, m.opaque_.value.value)
    else Res(w, Panicked(UnknownCosmosMsg))
  }

  /** convertCosmosSendMsg. */
  function ConvertSendMsg(env: Env, from: Text, to: Text, coins: seq<WasmCoin>): (r: Out<SdkMsg>)
    ensures r.Ok? ==> r.value.BankSend?
  {
    if from.Malformed? || to.Malformed? then Err(InvalidAddress)
    else
      match FromWasm(env.otherForms, coins)
      case None => Err(InvalidCoins)
      case Some(amount) => Ok(BankSend(from.addr, to.addr, amount))
  }

  function SendTokens(env: Env, w: World, signer: address, origin: Text, target: Text, tokens: seq<WasmCoin>): (r: Res<()>)
    requires w.meter.Metered?
    ensures Later(w, r.w) && GasLeft(r.w) <= GasLeft(w)
    decreases GasLeft(w), 3, 0
  {
    if tokens == [] then Res(w, Ok(()))
    else
      match ConvertSendMsg(env, origin, target, tokens)
      case Ok(m) => HandleSdkMessage(env, w, signer, m)
      case Err(e) => Res(w, Err(e))
      case Panicked(p) => Res(w, Panicked(p))
  }

  /** Every signer of the message must be the contract itself. */
  predicate Authorised(self: address, m: SdkMsg) {
    forall a :: a in GetSigners(m) ==> a == self
  }

  function HandleSdkMessage(env: Env, w: World, self: address, m: SdkMsg): (r: Res<()>)
    requires w.meter.Metered?
    ensures Later(w, r.w) && GasLeft(r.w) <= GasLeft(w)
    decreases GasLeft(w), 2, 0
  {
    if !Authorised(self, m) then Res(w, Err(Unauthorized)) else Handle(env, w, m)
  }

  /** The router: the bank's handler and the wasm handler. */
  function Handle(env: Env, w: World, m: SdkMsg): (r: Res<()>)
    requires w.meter.Metered?
    ensures Later(w, r.w) && GasLeft(r.w) <= GasLeft(w)
    decreases GasLeft(w), 1, 0
  {
    match m
    case StoreCode(sender, code, source, builder) =>
      if !env.storeCodeOk(m) then Res(w, Err(InvalidMsg))
      else
        var (w1, _) :- Create(env, w, sender, code, source, builder);
        Res(w1, Ok(()))
    case InstantiateContract(sender, codeID, initMsg, funds) =>
      var (w1, _) :- Instantiate(env, w, codeID, sender, initMsg, funds);
      Res(w1, Ok(()))
    case ExecuteContract(sender, contract, msg, funds) =>
      var (w1, _) :- Execute(env, w, contract, sender, msg, funds);
      Res(w1, Ok(()))
    case Other(_) => Res(w, Err(UnknownRequest))
    case _ => if env.bankRefuses(m) then Res(w, Err(BankRefused)) else Transfer(env, w, m)
  }
}
