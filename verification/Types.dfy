/** Messages, the world the keeper acts on, and everything foreign to it. */
module Types {
  import opened Bytes
  import opened Outcome
  import opened Layout
  import opened Coins
  import opened Bank
  import opened Gas

  // ------------------------------------------------------------------ messages

  /** An address as text: either it decodes, or it does not. */
  datatype Text = Parsed(addr: bytes) | Malformed

  datatype SendMsg = SendMsg(from: Text, to: Text, amount: seq<WasmCoin>)
  datatype ContractMsg = ContractMsg(contractAddr: Text, msg: bytes, send: seq<WasmCoin>)

  /** What a contract asks the chain to do: a struct with three optional parts. An opaque part
      is an encoded SDK message, or bytes that do not decode. */
  datatype CosmosMsg = CosmosMsg(
    send: Option<SendMsg>,
    contract: Option<ContractMsg>,
    opaque_: Option<Option<SdkMsg>>)

  /** The messages the router can be given. `Other` has a route without a handler. */
  datatype SdkMsg =
    | BankSend(from: bytes, to: bytes, amount: seq<Coin>)
    | BankMultiSend(ins: seq<Party>, outs: seq<Party>)
    | StoreCode(sender: bytes, code: bytes, source: string, builder: string)
    | InstantiateContract(sender: bytes, codeID: uint64, initMsg: bytes, funds: seq<Coin>)
    | ExecuteContract(sender: bytes, contract: bytes, msg: bytes, funds: seq<Coin>)
    | Other(signers: seq<bytes>)

  function GetSigners(m: SdkMsg): seq<bytes> {
    match m
    case BankSend(from, _, _) => [from]
    case BankMultiSend(ins, _) => seq(|ins|, i requires 0 <= i < |ins| => ins[i].addr)
    case StoreCode(sender, _, _, _) => [sender]
    case InstantiateContract(sender, _, _, _) => [sender]
    case ExecuteContract(sender, _, _, _) => [sender]
    case Other(signers) => signers
  }

  // ------------------------------------------------------------------ contracts

  datatype Entry = OnInit | OnHandle

  datatype RunInput = RunInput(
    entry: Entry,
    codeHash: bytes,
    signer: bytes,
    sentFunds: seq<WasmCoin>,
    contract: address,
    balance: Balances,
    msg: bytes,
    store: map<bytes, bytes>,
    gas: uint64)

  datatype Update = Set(key: bytes, value: bytes) | Delete(key: bytes)

  datatype RunResult = RunResult(gasUsed: uint64, messages: seq<CosmosMsg>, data: bytes)

  /** The writes a run made to its prefix store, what its storage accesses cost, and how it ended. */
  datatype RunOutput = RunOutput(updates: seq<Update>, storageGas: nat, result: Option<RunResult>)

  function ApplyUpdates(m: map<bytes, bytes>, us: seq<Update>): map<bytes, bytes> {
    if us == [] then m
    else
      var n := ApplyUpdates(m, us[..|us| - 1]);
      match us[|us| - 1]
      case Set(key, value) => n[key := value]
      case Delete(key) => n - {key}
  }

  /** A contract's writes leave under each key the last value written there, nothing if it was
      deleted last, and what was there before if nothing was written. */
  lemma {:induction false} UpdatesLast(m: map<bytes, bytes>, us: seq<Update>, k: bytes)
    ensures var n := ApplyUpdates(m, us);
            && ((forall i :: 0 <= i < |us| ==> us[i].key != k) ==> (if k in m then k in n && n[k] == m[k] else k !in n))
            && (forall i :: 0 <= i < |us| && us[i].key == k && (forall j :: i < j < |us| ==> us[j].key != k)
                            ==> if us[i].Set? then k in n && n[k] == us[i].value else k !in n)
  {
    if us != [] {
      var init := us[..|us| - 1];
      UpdatesLast(m, init, k);
      forall i | 0 <= i < |init| ensures init[i] == us[i] {
      }
    }
  }

  // ------------------------------------------------------------------ environment

  /** What a metered access to the wasm store costs: never nothing. */
  type pos = x: nat | x > 0 witness 1

  /** Code that is not part of the repository, as arbitrary functions. */
  datatype Env = Env(
    run: RunInput -> RunOutput,
    accepts: bytes -> bool,
    codeHash: bytes -> bytes,
    inflate: bytes -> Option<bytes>,
    addressHash: bytes -> address,
    readCost: (bytes, Option<Value>) -> pos,
    writeCost: (bytes, Value) -> pos,
    accountCost: bytes -> nat,
    bankCost: SdkMsg -> nat,
    bankRefuses: SdkMsg -> bool,
    storeCodeOk: SdkMsg -> bool,
    denomOk: Denom -> bool,
    otherForms: string -> Option<int>)

  const WASM_MAGIC: bytes := [0x00, 0x61, 0x73, 0x6D]
  const GZIP_IDENT: bytes := [0x1F, 0x8B, 0x08]

  /** uncompress: gzip streams are inflated, anything else passes unchanged. */
  function Uncompress(env: Env, src: bytes): Option<bytes> {
    if |src| < 3 then Some(src)
    else if src[..3] != GZIP_IDENT then Some(src)
    else env.inflate(src)
  }

  /** The virtual machine only takes byte strings that start with the wasm magic. */
  predicate Compiles(env: Env, code: bytes) {
    HasPrefix(code, WASM_MAGIC) && env.accepts(code)
  }

  /** Code the virtual machine has accepted is never mistaken for a gzip stream. */
  lemma CompiledPassesUncompress(env: Env, code: bytes)
    requires Compiles(env, code)
    ensures Uncompress(env, code) == Some(code)
  {
    assert code[..4][0] == 0;
    assert code[..3][0] == 0;
  }

  /** What an upload contains: the inflation of a gzip stream, else the bytes themselves. */
  predicate Contains(env: Env, upload: bytes, code: bytes) {
    if |upload| >= 3 && upload[0] == 0x1F && upload[1] == 0x8B && upload[2] == 0x08 then env.inflate(upload) == Some(code)
    else code == upload
  }

  /** Wasm that the virtual machine takes. */
  predicate IsWasm(env: Env, code: bytes) {
    |code| >= 4 && code[0] == 0 && code[1] == 0x61 && code[2] == 0x73 && code[3] == 0x6D && env.accepts(code)
  }

  lemma UncompressIff(env: Env, upload: bytes, code: bytes)
    ensures Uncompress(env, upload) == Some(code) <==> Contains(env, upload, code)
  {
    if |upload| >= 3 {
      assert upload[..3] == [upload[0], upload[1], upload[2]];
    }
  }

  lemma CompilesIff(env: Env, code: bytes)
    ensures Compiles(env, code) <==> IsWasm(env, code)
  {
    if |code| >= 4 {
      assert code[..4] == [code[0], code[1], code[2], code[3]];
    }
  }

  // ------------------------------------------------------------------ world

  /** What happened, in order. `Called` is an attempt to execute an address, `Ran` an invocation
      of a contract's code, `Billed` what the run on an input reported and was charged, `Generated`
      a drawn instance id. */
  datatype Event =
    | Called(callee: bytes)
    | Ran(contract: address)
    | Billed(input: RunInput, used: nat, charged: nat)
    | Generated(codeID: uint64, instanceID: uint64)

  datatype World = World(
    reg: Registry,
    vm: map<bytes, bytes>,
    bank: Ledger,
    meter: Meter,
    log: seq<Event>)

  function GasLeft(w: World): nat {
    Left(w.meter)
  }

  /** The result of a step on a world: the world after it, and how it ended. */
  datatype Res<+T> = Res(w: World, out: Out<T>) {
    predicate IsFailure() {
      out.IsFailure()
    }

    function PropagateFailure<U>(): Res<U>
      requires IsFailure()
    {
      Res(w, out.PropagateFailure())
    }

    function Extract(): (World, T)
      requires !IsFailure()
    {
      (w, out.value)
    }
  }

  function Log(w: World, e: Event): World {
    w.(log := w.log + [e])
  }

  /** The events a stretch of execution added. */
  function News(w: World, v: World): seq<Event>
    requires w.log <= v.log
  {
    v.log[|w.log|..]
  }

  /** Gas and history only grow; the limit stays. */
  ghost predicate Later(w: World, v: World) {
    && w.log <= v.log
    && (w.meter.Unmetered? ==> v.meter.Unmetered?)
    && (w.meter.Metered? ==> v.meter.Metered? && v.meter.limit == w.meter.limit && v.meter.consumed >= w.meter.consumed)
  }
}
