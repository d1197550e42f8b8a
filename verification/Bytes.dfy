/** Byte strings: their order, and the two integer encodings the keeper stores or hashes. */
module Bytes {

  type byte = b: int | 0 <= b < 0x100
  type bytes = seq<byte>

  const TWO_64: int := 0x1_0000_0000_0000_0000
  type uint64 = x: int | 0 <= x < TWO_64

  /** A generated contract address: the 20 bytes of an address hash. */
  type address = a: bytes | |a| == 20 witness ZERO_ADDRESS

  const ZERO_ADDRESS: bytes := [0, 0, 0, 0, 0, 0, 0, 0, 0, 0, 0, 0, 0, 0, 0, 0, 0, 0, 0, 0]

  /** Go's `bytes.Compare(a, b) < 0`, the order in which a key-value store iterates. */
  predicate Less(a: bytes, b: bytes)
    decreases |a|
  {
    b != [] && (a == [] || a[0] < b[0] || (a[0] == b[0] && Less(a[1..], b[1..])))
  }

  /** The order in plain words: at the first place where they differ `a` is smaller, or `a` ends there. */
  lemma {:induction false} LessIff(a: bytes, b: bytes)
    ensures Less(a, b) <==> Before(a, b)
  {
    if Less(a, b) {
      if a == [] || a[0] < b[0] {
        assert FirstDifference(a, b, 0);
      } else {
        LessIff(a[1..], b[1..]);
        var n: nat :| FirstDifference(a[1..], b[1..], n);
        assert a == [a[0]] + a[1..] && b == [b[0]] + b[1..];
        assert a[..n + 1] == [a[0]] + a[1..][..n] && b[..n + 1] == [b[0]] + b[1..][..n];
        assert FirstDifference(a, b, n + 1);
      }
    }
    if n: nat :| FirstDifference(a, b, n) && n > 0 {
      assert a[0] == a[..n][0] == b[..n][0] == b[0];
      assert a[1..][..n - 1] == a[..n][1..] == b[..n][1..] == b[1..][..n - 1];
      assert FirstDifference(a[1..], b[1..], n - 1);
      LessIff(a[1..], b[1..]);
    }
  }

  ghost predicate Before(a: bytes, b: bytes) {
    exists n: nat :: FirstDifference(a, b, n)
  }

  predicate FirstDifference(a: bytes, b: bytes, n: nat) {
    n <= |a| && n < |b| && a[..n] == b[..n] && (n == |a| || a[n] < b[n])
  }

  lemma {:induction false} LessIrreflexive(a: bytes)
    ensures !Less(a, a)
  {
    if a != [] {
      LessIrreflexive(a[1..]);
    }
  }

  lemma {:induction false} LessTransitive(a: bytes, b: bytes, c: bytes)
    requires Less(a, b) && Less(b, c)
    ensures Less(a, c)
  {
    if a != [] && a[0] == b[0] && b[0] == c[0] {
      LessTransitive(a[1..], b[1..], c[1..]);
    }
  }

  lemma {:induction false} LessTotal(a: bytes, b: bytes)
    ensures a == b || Less(a, b) || Less(b, a)
  {
    if a != [] && b != [] && a[0] == b[0] {
      LessTotal(a[1..], b[1..]);
      assert a == [a[0]] + a[1..] && b == [b[0]] + b[1..];
    }
  }

  /** A common prefix does not change the order: a prefix store iterates like the store below it. */
  lemma {:induction false} LessUnderPrefix(p: bytes, a: bytes, b: bytes)
    ensures Less(p + a, p + b) == Less(a, b)
  {
    if p == [] {
      assert p + a == a && p + b == b;
    } else {
      assert (p + a)[1..] == p[1..] + a && (p + b)[1..] == p[1..] + b;
      LessUnderPrefix(p[1..], a, b);
    }
  }

  /** The last `n` base-256 digits of `x`, most significant first. */
  function BigEndian(x: nat, n: nat): (r: bytes)
    ensures |r| == n
  {
    if n == 0 then [] else BigEndian(x / 256, n - 1) + [x % 256]
  }

  function FromBigEndian(bz: bytes): nat
  {
    if bz == [] then 0 else FromBigEndian(bz[..|bz| - 1]) * 256 + bz[|bz| - 1]
  }

  function Pow256(n: nat): (r: nat)
    ensures r > 0
  {
    if n == 0 then 1 else 256 * Pow256(n - 1)
  }

  lemma {:induction false} BigEndianDecodes(x: nat, n: nat)
    requires x < Pow256(n)
    ensures FromBigEndian(BigEndian(x, n)) == x
  {
    if n > 0 {
      var init := BigEndian(x / 256, n - 1);
      assert BigEndian(x, n)[..n - 1] == init;
      BigEndianDecodes(x / 256, n - 1);
    }
  }

  lemma {:induction false} BigEndianEncodes(bz: bytes)
    ensures FromBigEndian(bz) < Pow256(|bz|)
    ensures BigEndian(FromBigEndian(bz), |bz|) == bz
  {
    if bz != [] {
      var init := bz[..|bz| - 1];
      BigEndianEncodes(init);
      assert bz == init + [bz[|bz| - 1]];
      assert FromBigEndian(bz) / 256 == FromBigEndian(init);
    }
  }

  lemma MultiplesGrow(x: nat, y: nat, d: nat)
    requires x < y
    ensures x * d + d <= y * d
  {
    assert (y - x - 1) * d >= 0;
    assert y * d == x * d + d + (y - x - 1) * d;
  }

  lemma DivUnique(x: nat, d: nat, q: nat, r: nat)
    requires r < d && x == q * d + r
    ensures x / d == q
  {
    var p := x / d;
    assert x == p * d + x % d;
    if p < q {
      MultiplesGrow(p, q, d);
      assert false;
    } else if q < p {
      MultiplesGrow(q, p, d);
      assert false;
    }
  }

  lemma DivDiv(x: nat, a: nat, b: nat)
    requires a > 0 && b > 0
    ensures a * b > 0 && x / a / b == x / (a * b)
  {
    var y, r := x / a, x % a;
    var q, s := y / b, y % b;
    assert x == y * a + r && y == q * b + s;
    MultiplesGrow(s, b, a);
    assert y * a == q * (b * a) + s * a;
    DivUnique(x, b * a, q, s * a + r);
  }

  /** Place by place: the digit that stands for 256^(n - 1 - i). */
  lemma {:induction false} BigEndianDigit(x: nat, n: nat, i: nat)
    requires i < n
    ensures BigEndian(x, n)[i] == x / Pow256(n - 1 - i) % 256
  {
    if i < n - 1 {
      BigEndianDigit(x / 256, n - 1, i);
      DivDiv(x, 256, Pow256(n - 2 - i));
    }
  }

  lemma Pow256Of8()
    ensures Pow256(8) == TWO_64
  {
    assert Pow256(4) == 256 * 256 * 256 * 256;
    assert Pow256(8) == 256 * 256 * 256 * 256 * Pow256(4);
  }

  /** `sdk.Uint64ToBigEndian`. */
  function Uint64ToBigEndian(x: uint64): (r: bytes)
    ensures |r| == 8
  {
    BigEndian(x, 8)
  }

  /** `binary.BigEndian.Uint64` on an 8-byte value. */
  function BigEndianToUint64(bz: bytes): (x: uint64)
    requires |bz| == 8
  {
    BigEndianEncodes(bz);
    Pow256Of8();
    FromBigEndian(bz)
  }

  /** Counters survive being stored, and every 8-byte string is the encoding of its value. */
  lemma Uint64RoundTrip(x: uint64, bz: bytes)
    ensures BigEndianToUint64(Uint64ToBigEndian(x)) == x
    ensures |bz| == 8 ==> Uint64ToBigEndian(BigEndianToUint64(bz)) == bz
  {
    Pow256Of8();
    BigEndianDecodes(x, 8);
    BigEndianEncodes(bz);
  }

  /** The bytes `binary.PutUvarint` writes: base-128 digits, least significant first. */
  function Uvarint(x: nat): (r: bytes)
    ensures |r| >= 1
  {
    if x < 0x80 then [x] else [x % 0x80 + 0x80] + Uvarint(x / 0x80)
  }

  /** Reads one varint from the front of a buffer, ignoring what follows it. */
  function ReadUvarint(bz: bytes): nat
  {
    if bz == [] then 0
    else if bz[0] < 0x80 then bz[0]
    else bz[0] - 0x80 + 0x80 * ReadUvarint(bz[1..])
  }

  function Pow128(n: nat): nat
  {
    if n == 0 then 1 else 128 * Pow128(n - 1)
  }

  lemma {:induction false} UvarintLength(x: nat, n: nat)
    requires n >= 1 && x < Pow128(n)
    ensures |Uvarint(x)| <= n
  {
    if x >= 0x80 {
      assert n > 1 by {
        assert Pow128(1) == 128 * Pow128(0);
      }
      UvarintLength(x / 0x80, n - 1);
    }
  }

  lemma {:induction false} UvarintDecodes(x: nat, tail: bytes)
    ensures ReadUvarint(Uvarint(x) + tail) == x
  {
    if x >= 0x80 {
      assert (Uvarint(x) + tail)[1..] == Uvarint(x / 0x80) + tail;
      UvarintDecodes(x / 0x80, tail);
    }
  }

  lemma Pow128Positive(n: nat)
    ensures Pow128(n) > 0
  {
  }

  /** Place by place: seven bits each, the high bit set on all but the last, which is not zero. */
  lemma {:induction false} UvarintDigit(x: nat, i: nat)
    requires i < |Uvarint(x)|
    ensures Pow128(i) > 0
    ensures Uvarint(x)[i] == x / Pow128(i) % 128 + (if i < |Uvarint(x)| - 1 then 128 else 0)
    ensures i == |Uvarint(x)| - 1 ==> x / Pow128(i) < 128 && (i > 0 ==> x / Pow128(i) > 0)
  {
    Pow128Positive(i);
    if i > 0 {
      Pow128Positive(i - 1);
      UvarintDigit(x / 128, i - 1);
      DivDiv(x, 128, Pow128(i - 1));
    }
  }

  /** The encoding of a uint64 takes at most 10 bytes. */
  lemma UvarintFits(x: uint64)
    ensures |Uvarint(x)| <= 10
  {
    assert Pow128(5) == 128 * 128 * 128 * 128 * 128 * Pow128(0);
    assert Pow128(10) == 128 * 128 * 128 * 128 * 128 * Pow128(5);
    UvarintLength(x, 10);
  }

  /** The 20-byte buffer hashed into an address: 'C', the varint, zero padding. */
  function AddressBuffer(id: uint64): (buf: bytes)
    ensures |buf| == 20 && buf[0] == 'C' as int
  {
    UvarintFits(id);
    ['C' as int] + Uvarint(id) + seq(19 - |Uvarint(id)|, _ => 0)
  }

  /** 20 bytes: 'C', the base-128 digits of `id` from the lowest on, up to the last that is not
      zero, with the high bit set on all but that one, and then zeros. */
  predicate IsAddressBuffer(buf: bytes, id: uint64, n: nat) {
    && |buf| == 20 && buf[0] == 67 && 1 <= n <= 10
    && (forall i :: 0 <= i < n ==> Pow128(i) > 0 && buf[1 + i] == id / Pow128(i) % 128 + (if i < n - 1 then 128 else 0))
    && Pow128(n - 1) > 0 && id / Pow128(n - 1) < 128 && (n > 1 ==> id / Pow128(n - 1) > 0)
    && (forall i :: n < i < 20 ==> buf[i] == 0)
  }

  lemma AddressBufferIs(id: uint64)
    ensures exists n: nat :: IsAddressBuffer(AddressBuffer(id), id, n)
  {
    UvarintFits(id);
    var n, buf := |Uvarint(id)|, AddressBuffer(id);
    forall i | 0 <= i < n
      ensures Pow128(i) > 0 && buf[1 + i] == id / Pow128(i) % 128 + (if i < n - 1 then 128 else 0)
    {
      UvarintDigit(id, i);
    }
    UvarintDigit(id, n - 1);
    assert IsAddressBuffer(buf, id, n);
  }

  /** The identifier can be read back from the padded buffer, so padding loses nothing. */
  lemma AddressBufferInjective(x: uint64, y: uint64)
    ensures ReadUvarint(AddressBuffer(x)[1..]) == x
    ensures AddressBuffer(x) == AddressBuffer(y) ==> x == y
  {
    AddressBufferDecodes(x);
    AddressBufferDecodes(y);
  }

  lemma AddressBufferDecodes(x: uint64)
    ensures ReadUvarint(AddressBuffer(x)[1..]) == x
  {
    UvarintFits(x);
    var pad: bytes := seq(19 - |Uvarint(x)|, _ => 0);
    assert AddressBuffer(x)[1..] == Uvarint(x) + pad;
    UvarintDecodes(x, pad);
  }

  /** All keys of a set in ascending order: what an iterator over the set yields. */
  function Ascending(s: set<bytes>): (r: seq<bytes>)
    ensures |r| == |s|
    ensures forall k :: k in r <==> k in s
    ensures IsAscending(r)
  {
    if s == {} then []
    else
      HasLeast(s);
      LeastUnique(s);
      var k :| k in s && IsLeast(k, s);
      var rest := Ascending(s - {k});
      assert forall i :: 0 <= i < |rest| ==> rest[i] in rest;
      [k] + rest
  }

  predicate IsLeast(k: bytes, s: set<bytes>)
  {
    forall x :: x in s ==> x == k || Less(k, x)
  }

  predicate IsAscending(r: seq<bytes>)
  {
    forall i, j :: 0 <= i < j < |r| ==> Less(r[i], r[j])
  }

  lemma {:induction false} HasLeast(s: set<bytes>)
    requires s != {}
    ensures exists k :: k in s && IsLeast(k, s)
  {
    var x :| x in s;
    var rest := s - {x};
    if rest == {} {
      assert s == {x};
    } else {
      HasLeast(rest);
      var k :| k in rest && IsLeast(k, rest);
      LessTotal(x, k);
      if Less(x, k) {
        forall y | y in s ensures y == x || Less(x, y) {
          if y != x && y != k {
            LessTransitive(x, k, y);
          }
        }
        assert IsLeast(x, s);
      } else {
        assert IsLeast(k, s);
      }
    }
  }

  lemma LeastUnique(s: set<bytes>)
    ensures forall j, k :: j in s && k in s && IsLeast(j, s) && IsLeast(k, s) ==> j == k
  {
    forall j, k | j in s && k in s && IsLeast(j, s) && IsLeast(k, s) ensures j == k {
      if j != k {
        LessTransitive(j, k, j);
        LessIrreflexive(j);
      }
    }
  }

  /** A set has only one ascending enumeration. */
  lemma {:induction false} AscendingUnique(r: seq<bytes>, s: set<bytes>)
    requires IsAscending(r) && forall k :: k in r <==> k in s
    ensures r == Ascending(s)
  {
    var t := Ascending(s);
    if r == [] {
      assert s == {};
    } else {
      assert r[0] in s;
      assert t[0] in s && t[0] in r;
      assert r[0] in t;
      FirstIsLeast(r);
      FirstIsLeast(t);
      if r[0] != t[0] {
        LessTransitive(r[0], t[0], r[0]);
        LessIrreflexive(r[0]);
      }
      TailKeys(r, s);
      TailKeys(t, s);
      AscendingUnique(r[1..], s - {r[0]});
      AscendingUnique(t[1..], s - {r[0]});
    }
  }

  lemma FirstIsLeast(r: seq<bytes>)
    requires IsAscending(r) && r != []
    ensures forall k :: k in r ==> k == r[0] || Less(r[0], k)
  {
  }

  lemma TailKeys(r: seq<bytes>, s: set<bytes>)
    requires IsAscending(r) && r != [] && forall k :: k in r <==> k in s
    ensures IsAscending(r[1..]) && forall k :: k in r[1..] <==> k in s - {r[0]}
  {
    LessIrreflexive(r[0]);
    assert r == [r[0]] + r[1..];
  }
}
