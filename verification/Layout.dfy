/** The flat key space of the wasm store, and the structured registry it stands for.
    Models x/wasm/internal/types/keys.go and the records of types.go. */
module Layout {
  import opened Bytes
  import opened Outcome

  datatype CodeInfo = CodeInfo(hash: bytes, creator: bytes, source: string, builder: string)
  datatype ContractInfo = ContractInfo(codeID: uint64, creator: bytes, initMsg: bytes)

  /** A stored value. Counters are stored as raw bytes, records before amino encoding. */
  datatype Value =
    | Counter(raw: bytes)
    | CodeValue(code: CodeInfo)
    | ContractValue(contract: ContractInfo)
    | Raw(data: bytes)

  type Flat = map<bytes, Value>

  const KEY_LAST_CODE_ID: bytes := [108, 97, 115, 116, 67, 111, 100, 101, 73, 100]
  const KEY_LAST_INSTANCE_ID: bytes := [108, 97, 115, 116, 67, 111, 110, 116, 114, 97, 99, 116, 73, 100]
  const CODE_KEY_PREFIX: bytes := [1]
  const CONTRACT_KEY_PREFIX: bytes := [2]
  const CONTRACT_STORE_PREFIX: bytes := [3]

  function GetCodeKey(id: uint64): bytes {
    CODE_KEY_PREFIX + Uint64ToBigEndian(id)
  }

  function GetContractAddressKey(addr: bytes): bytes {
    CONTRACT_KEY_PREFIX + addr
  }

  function GetContractStorePrefixKey(addr: bytes): bytes {
    CONTRACT_STORE_PREFIX + addr
  }

  /** What a key of the wasm store can mean. */
  datatype Slot =
    | LastCode | LastInstance
    | Code(id: uint64)
    | Contract(addr: bytes)
    | Data(owner: address, key: bytes)

  function Encode(s: Slot): bytes {
    match s
    case LastCode => KEY_LAST_CODE_ID
    case LastInstance => KEY_LAST_INSTANCE_ID
    case Code(id) => GetCodeKey(id)
    case Contract(addr) => GetContractAddressKey(addr)
    case Data(owner, key) => GetContractStorePrefixKey(owner) + key
  }

  function Decode(k: bytes): Option<Slot> {
    if k == KEY_LAST_CODE_ID then Some(LastCode)
    else if k == KEY_LAST_INSTANCE_ID then Some(LastInstance)
    else if |k| == 9 && k[0] == 1 then Some(Code(BigEndianToUint64(k[1..])))
    else if |k| >= 1 && k[0] == 2 then Some(Contract(k[1..]))
    else if |k| >= 21 && k[0] == 3 then Some(Data(k[1..21], k[21..]))
    else None
  }

  function Ascii(s: string): bytes
    requires forall i :: 0 <= i < |s| ==> s[i] as int < 128
  {
    seq(|s|, i requires 0 <= i < |s| => s[i] as int)
  }

  /** Byte by byte, the key of everything there is. */
  lemma KeyBytes(s: Slot)
    ensures var k := Encode(s);
            match s
            case LastCode => k == Ascii("lastCodeId")
            case LastInstance => k == Ascii("lastContractId")
            case Code(id) => |k| == 9 && k[0] == 1 && forall i :: 0 <= i < 8 ==> k[1..][i] == id / Pow256(7 - i) % 256
            case Contract(addr) => k == [2] + addr
            case Data(owner, key) => k == [3] + owner + key
  {
    match s {
      case Code(id) =>
        assert Encode(s)[1..] == BigEndian(id, 8);
        forall i | 0 <= i < 8 ensures Encode(s)[1..][i] == id / Pow256(7 - i) % 256 {
          BigEndianDigit(id, 8, i);
        }
      case _ =>
    }
  }

  /** A key tells which of the five regions it is in and what it denotes there. */
  lemma KeysDecode(s: Slot)
    ensures Decode(Encode(s)) == Some(s)
  {
    var k := Encode(s);
    assert KEY_LAST_CODE_ID[0] == KEY_LAST_INSTANCE_ID[0] == 108;
    assert |KEY_LAST_CODE_ID| == 10 && |KEY_LAST_INSTANCE_ID| == 14;
    match s {
      case Code(id) =>
        assert k[0] == 1;
        assert GetCodeKey(id)[1..] == Uint64ToBigEndian(id);
        Uint64RoundTrip(id, []);
      case Contract(addr) =>
        assert k[0] == 2;
        assert GetContractAddressKey(addr)[1..] == addr;
      case Data(owner, key) =>
        assert k[0] == 3;
        assert k[1..21] == owner && k[21..] == key;
      case _ =>
    }
  }

  /** No two meanings share a key: the encoders are injective and the regions disjoint. */
  lemma KeysInjective(s: Slot, t: Slot)
    ensures Encode(s) == Encode(t) <==> s == t
  {
    KeysDecode(s);
    KeysDecode(t);
  }

  lemma DecodedKeysEncode(k: bytes)
    requires Decode(k).Some?
    ensures Encode(Decode(k).value) == k
  {
    match Decode(k).value {
      case Code(id) =>
        Uint64RoundTrip(0, k[1..]);
        assert k == [1] + k[1..];
      case Contract(_) =>
        assert k == [2] + k[1..];
      case Data(_, _) =>
        assert k == [3] + k[1..21] + k[21..];
      case _ =>
    }
  }

  // ------------------------------------------------------------------ the structured registry

  /** The same data as records: two counters, codes, contracts and one map per contract. */
  datatype Registry = Registry(
    codeSeq: Option<uint64>,
    instanceSeq: Option<uint64>,
    codes: map<uint64, CodeInfo>,
    contracts: map<address, ContractInfo>,
    data: map<address, map<bytes, bytes>>)

  const EMPTY: Registry := Registry(None, None, map[], map[], map[])

  /** The next identifier a counter will hand out; an absent counter starts at 1. */
  function Next(counter: Option<uint64>): uint64 {
    if counter.None? then 1 else counter.value
  }

  function SubStore(reg: Registry, a: address): map<bytes, bytes> {
    if a in reg.data then reg.data[a] else map[]
  }

  lemma SameData(reg: Registry, later: Registry)
    requires later.data == reg.data
    ensures forall a: address :: SubStore(later, a) == SubStore(reg, a)
  {
  }

  lemma DataFrame(reg: Registry, self: address, m: map<bytes, bytes>)
    ensures forall a: address :: SubStore(reg.(data := reg.data[self := m]), a) == if a == self then m else SubStore(reg, a)
  {
  }

  function ReadCounter(counter: Option<uint64>): Option<Value> {
    if counter.None? then None else Some(Counter(Uint64ToBigEndian(counter.value)))
  }

  function Lookup(reg: Registry, s: Slot): Option<Value> {
    match s
    case LastCode => ReadCounter(reg.codeSeq)
    case LastInstance => ReadCounter(reg.instanceSeq)
    case Code(id) => if id in reg.codes then Some(CodeValue(reg.codes[id])) else None
    case Contract(addr) =>
      if |addr| == 20 && addr in reg.contracts then Some(ContractValue(reg.contracts[addr])) else None
    case Data(owner, key) =>
      var sub := SubStore(reg, owner);
      if key in sub then Some(Raw(sub[key])) else None
  }

  /** Values the keeper writes at a slot. */
  predicate Fits(s: Slot, v: Value) {
    match s
    case LastCode => v.Counter? && |v.raw| == 8
    case LastInstance => v.Counter? && |v.raw| == 8
    case Code(_) => v.CodeValue?
    case Contract(addr) => v.ContractValue? && |addr| == 20
    case Data(_, _) => v.Raw?
  }

  function Put(reg: Registry, s: Slot, v: Value): Registry
    requires Fits(s, v)
  {
    match s
    case LastCode => reg.(codeSeq := Some(BigEndianToUint64(v.raw)))
    case LastInstance => reg.(instanceSeq := Some(BigEndianToUint64(v.raw)))
    case Code(id) => reg.(codes := reg.codes[id := v.code])
    case Contract(addr) => reg.(contracts := reg.contracts[addr := v.contract])
    case Data(owner, key) => reg.(data := reg.data[owner := SubStore(reg, owner)[key := v.data]])
  }

  function Drop(reg: Registry, owner: address, key: bytes): Registry {
    reg.(data := reg.data[owner := SubStore(reg, owner) - {key}])
  }

  lemma LookupAfterPut(reg: Registry, s: Slot, v: Value, t: Slot)
    requires Fits(s, v)
    ensures Lookup(Put(reg, s, v), t) == if t == s then Some(v) else Lookup(reg, t)
  {
    if v.Counter? {
      Uint64RoundTrip(0, v.raw);
    }
  }

  lemma LookupAfterDrop(reg: Registry, owner: address, key: bytes, t: Slot)
    ensures Lookup(Drop(reg, owner, key), t) == if t == Data(owner, key) then None else Lookup(reg, t)
  {
  }

  // ------------------------------------------------------------------ the refinement

  function Fetch(kv: Flat, k: bytes): Option<Value> {
    if k in kv then Some(kv[k]) else None
  }

  /** The flat store holds exactly what the registry says, and no stray key. */
  ghost predicate Represents(kv: Flat, reg: Registry) {
    && (forall s: Slot :: Fetch(kv, Encode(s)) == Lookup(reg, s))
    && (forall k :: k in kv ==> Decode(k).Some?)
  }

  /** A write at one key simulates the update of one slot. */
  lemma PutSimulates(kv: Flat, reg: Registry, s: Slot, v: Value)
    requires Represents(kv, reg) && Fits(s, v)
    ensures Represents(kv[Encode(s) := v], Put(reg, s, v))
  {
    var kv' := kv[Encode(s) := v];
    forall t: Slot ensures Fetch(kv', Encode(t)) == Lookup(Put(reg, s, v), t) {
      KeysInjective(s, t);
      LookupAfterPut(reg, s, v, t);
    }
    KeysDecode(s);
  }

  lemma DropSimulates(kv: Flat, reg: Registry, owner: address, key: bytes)
    requires Represents(kv, reg)
    ensures Represents(kv - {Encode(Data(owner, key))}, Drop(reg, owner, key))
  {
    var s := Data(owner, key);
    var kv' := kv - {Encode(s)};
    forall t: Slot ensures Fetch(kv', Encode(t)) == Lookup(Drop(reg, owner, key), t) {
      KeysInjective(s, t);
      LookupAfterDrop(reg, owner, key, t);
    }
  }

  // ------------------------------------------------------------------ prefix stores

  predicate HasPrefix(k: bytes, p: bytes) {
    |p| <= |k| && k[..|p|] == p
  }

  /** `prefix.NewStore(store, p)`: the keys under `p`, with `p` removed. */
  function PrefixStore(kv: Flat, p: bytes): Flat {
    map k | k in kv && HasPrefix(k, p) :: StripPrefix(k, p) := kv[k]
  }

  function StripPrefix(k: bytes, p: bytes): (r: bytes)
    requires HasPrefix(k, p)
    ensures p + r == k
  {
    k[|p|..]
  }

  lemma PrefixStoreHas(kv: Flat, p: bytes, k: bytes)
    ensures Fetch(PrefixStore(kv, p), k) == Fetch(kv, p + k)
  {
    assert HasPrefix(p + k, p) && StripPrefix(p + k, p) == k;
  }

  /** Iterating a prefix store visits the store's own keys under that prefix in the store's order. */
  lemma PrefixIterationOrder(kv: Flat, p: bytes)
    ensures var ks := Ascending(PrefixStore(kv, p).Keys);
            Ascending(set k | k in kv && HasPrefix(k, p)) == seq(|ks|, i requires 0 <= i < |ks| => p + ks[i])
  {
    var ks := Ascending(PrefixStore(kv, p).Keys);
    var full := seq(|ks|, i requires 0 <= i < |ks| => p + ks[i]);
    var under := set k | k in kv && HasPrefix(k, p);
    forall k ensures k in full <==> k in under {
      if k in full {
        var i :| 0 <= i < |full| && full[i] == k;
        assert ks[i] in ks;
        PrefixStoreHas(kv, p, ks[i]);
      }
      if k in under {
        PrefixStoreHas(kv, p, StripPrefix(k, p));
        assert StripPrefix(k, p) in ks;
        var i :| 0 <= i < |ks| && ks[i] == StripPrefix(k, p);
        assert full[i] == k;
      }
    }
    forall i, j | 0 <= i < j < |full| ensures Less(full[i], full[j]) {
      LessUnderPrefix(p, ks[i], ks[j]);
    }
    AscendingUnique(full, under);
  }

  /** Under 0x02 lie the contracts and nothing else. */
  lemma ContractRegion(kv: Flat, reg: Registry, k: bytes)
    requires Represents(kv, reg)
    ensures Fetch(PrefixStore(kv, CONTRACT_KEY_PREFIX), k) == Lookup(reg, Contract(k))
  {
    PrefixStoreHas(kv, CONTRACT_KEY_PREFIX, k);
    assert Encode(Contract(k)) == CONTRACT_KEY_PREFIX + k;
  }

  /** The pairs an iterator or a lookup under 0x03 and `addr` can see: those of every contract
      whose address and key together start with `addr`. */
  function DataUnder(reg: Registry, addr: bytes): map<bytes, bytes> {
    var ks := set o: address, key | o in reg.data && key in reg.data[o] && HasPrefix(o + key, addr)
                :: StripPrefix(o + key, addr);
    map k | k in ks && |addr + k| >= 20 && (addr + k)[20..] in SubStore(reg, (addr + k)[..20])
      :: SubStore(reg, (addr + k)[..20])[(addr + k)[20..]]
  }

  lemma DataUnderAt(reg: Registry, addr: bytes, k: bytes)
    ensures k in DataUnder(reg, addr) <==> |addr + k| >= 20 && (addr + k)[20..] in SubStore(reg, (addr + k)[..20])
    ensures k in DataUnder(reg, addr) ==> DataUnder(reg, addr)[k] == SubStore(reg, (addr + k)[..20])[(addr + k)[20..]]
  {
    var whole := addr + k;
    if |whole| >= 20 && whole[20..] in SubStore(reg, whole[..20]) {
      var o: address, key := whole[..20], whole[20..];
      assert o + key == whole;
      assert HasPrefix(o + key, addr) && StripPrefix(o + key, addr) == k;
    }
  }

  /** For a 20-byte address these are the contract's own pairs. */
  lemma DataUnderAddress(reg: Registry, a: address)
    ensures DataUnder(reg, a) == SubStore(reg, a)
  {
    hide DataUnder;
    forall k: bytes
      ensures k in DataUnder(reg, a) <==> k in SubStore(reg, a)
      ensures k in DataUnder(reg, a) ==> DataUnder(reg, a)[k] == SubStore(reg, a)[k]
    {
      DataUnderAt(reg, a, k);
      assert (a + k)[..20] == a && (a + k)[20..] == k;
    }
  }

  /** A key of the data region belongs to a contract exactly when an address fits in it. */
  lemma DataKey(whole: bytes)
    ensures |whole| >= 20 ==> Encode(Data(whole[..20], whole[20..])) == CONTRACT_STORE_PREFIX + whole
    ensures |whole| < 20 ==> Decode(CONTRACT_STORE_PREFIX + whole) == None
  {
    if |whole| >= 20 {
      assert whole == whole[..20] + whole[20..];
    } else {
      assert (CONTRACT_STORE_PREFIX + whole)[0] == 3 && KEY_LAST_CODE_ID[0] == KEY_LAST_INSTANCE_ID[0] == 108;
    }
  }

  /** What lies under 0x03 and `addr`, key by key. */
  lemma DataAt(kv: Flat, reg: Registry, addr: bytes, k: bytes)
    requires Represents(kv, reg)
    ensures var sub := DataUnder(reg, addr);
            Fetch(PrefixStore(kv, GetContractStorePrefixKey(addr)), k) == if k in sub then Some(Raw(sub[k])) else None
  {
    hide DataUnder, PrefixStore, Encode, Decode;
    var p, whole := GetContractStorePrefixKey(addr), addr + k;
    PrefixStoreHas(kv, p, k);
    DataUnderAt(reg, addr, k);
    DataKey(whole);
    assert p + k == CONTRACT_STORE_PREFIX + whole;
    if |whole| >= 20 {
      var s := Data(whole[..20], whole[20..]);
      assert Fetch(kv, Encode(s)) == Lookup(reg, s);
    }
  }

  function Unwrap(v: Value): bytes {
    if v.Raw? then v.data else []
  }

  /** The bytes a contract sees through its prefix store. */
  function RawStore(kv: Flat): map<bytes, bytes> {
    map k | k in kv :: Unwrap(kv[k])
  }

  lemma ContractsView(kv: Flat, reg: Registry)
    requires Represents(kv, reg)
    ensures PrefixStore(kv, CONTRACT_KEY_PREFIX).Keys == reg.contracts.Keys
    ensures forall a :: a in reg.contracts ==>
              PrefixStore(kv, CONTRACT_KEY_PREFIX)[a] == ContractValue(reg.contracts[a])
  {
    var view := PrefixStore(kv, CONTRACT_KEY_PREFIX);
    forall k: bytes ensures Fetch(view, k) == Lookup(reg, Contract(k)) {
      ContractRegion(kv, reg, k);
    }
    forall k: bytes ensures k in view.Keys <==> k in reg.contracts.Keys {
      assert Fetch(view, k) == Lookup(reg, Contract(k));
    }
    forall a | a in reg.contracts ensures view[a] == ContractValue(reg.contracts[a]) {
      assert Fetch(view, a) == Lookup(reg, Contract(a));
    }
  }

  lemma DataView(kv: Flat, reg: Registry, addr: bytes)
    requires Represents(kv, reg)
    ensures RawStore(PrefixStore(kv, GetContractStorePrefixKey(addr))) == DataUnder(reg, addr)
  {
    hide DataUnder, PrefixStore, Represents;
    var view, sub := PrefixStore(kv, GetContractStorePrefixKey(addr)), DataUnder(reg, addr);
    forall k: bytes ensures Fetch(view, k) == if k in sub then Some(Raw(sub[k])) else None {
      DataAt(kv, reg, addr, k);
    }
    var raw := RawStore(view);
    forall k: bytes ensures (k in raw <==> k in sub) && (k in raw ==> raw[k] == sub[k]) {
      assert Fetch(view, k) == if k in sub then Some(Raw(sub[k])) else None;
    }
  }
}
