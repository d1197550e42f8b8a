/** Coins as the SDK and as a contract write them, and the conversions between the two.
    Models NewWasmCoins (types.go) and the loop of convertCosmosSendMsg (keeper.go). */
module Coins {
  import opened Bytes
  import opened Outcome

  /** A denomination is ordered by its bytes, as Go strings are. */
  type Denom = bytes

  datatype Coin = Coin(denom: Denom, amount: int)
  datatype WasmCoin = WasmCoin(denom: Denom, amount: string)

  /** `sdk.Int` holds at most 255 bits beside the sign. */
  const TWO_255: int := 0x8000_0000_0000_0000_0000_0000_0000_0000_0000_0000_0000_0000_0000_0000_0000_0000

  predicate InRange(x: int) {
    -TWO_255 < x < TWO_255
  }

  // ------------------------------------------------------------------ decimal amounts

  function DigitChar(d: nat): (c: char)
    requires d < 10
    ensures IsDigit(c) && DigitValue(c) == d
  {
    d as char + '0'
  }

  predicate IsDigit(c: char) {
    '0' <= c <= '9'
  }

  function DigitValue(c: char): nat
    requires IsDigit(c)
  {
    c as int - '0' as int
  }

  predicate AllDigits(s: string) {
    forall i :: 0 <= i < |s| ==> IsDigit(s[i])
  }

  function Decimal(n: nat): (s: string)
    ensures s != [] && AllDigits(s)
    ensures s[0] == '0' ==> n == 0 && s == "0"
  {
    if n < 10 then [DigitChar(n)] else Decimal(n / 10) + [DigitChar(n % 10)]
  }

  function DecimalValue(s: string): nat
    requires AllDigits(s)
  {
    if s == [] then 0 else DecimalValue(s[..|s| - 1]) * 10 + DigitValue(s[|s| - 1])
  }

  /** `Int.String`. */
  function PrintAmount(x: int): string {
    if x < 0 then "-" + Decimal(-x) else Decimal(x)
  }

  /** Decimal numerals without a superfluous leading zero. */
  predicate IsCanonical(s: string) {
    s != [] && AllDigits(s) && (s[0] == '0' ==> |s| == 1)
  }

  /** `sdk.NewIntFromString`. Numerals other than plain decimals (base prefixes, signs and
      separators that math/big also takes) are read by the parameter `otherForms`. */
  function ParseAmount(otherForms: string -> Option<int>, s: string): (r: Option<int>)
    ensures r.Some? ==> InRange(r.value)
  {
    var parsed: Option<int> :=
      if IsCanonical(s) then Some(DecimalValue(s))
      else if s != [] && s[0] == '-' && IsCanonical(s[1..]) then Some(0 - DecimalValue(s[1..]))
      else otherForms(s);
    if parsed.Some? && InRange(parsed.value) then parsed else None
  }

  lemma {:induction false} DecimalRoundTrip(n: nat)
    ensures DecimalValue(Decimal(n)) == n
  {
    if n >= 10 {
      assert Decimal(n)[..|Decimal(n)| - 1] == Decimal(n / 10);
      DecimalRoundTrip(n / 10);
    }
  }

  function Pow10(n: nat): (r: nat)
    ensures r > 0
  {
    if n == 0 then 1 else 10 * Pow10(n - 1)
  }

  /** `s` is `n` written in decimal: place by place, without a superfluous leading zero. */
  predicate IsNumeral(s: string, n: nat) {
    && s != [] && (n < Pow10(|s|))
    && (forall i :: 0 <= i < |s| ==> s[|s| - 1 - i] as int == '0' as int + n / Pow10(i) % 10)
    && (|s| > 1 ==> s[0] != '0')
  }

  lemma {:induction false} DecimalIsNumeral(n: nat)
    ensures IsNumeral(Decimal(n), n)
  {
    var s := Decimal(n);
    if n >= 10 {
      var init := Decimal(n / 10);
      DecimalIsNumeral(n / 10);
      assert s == init + [DigitChar(n % 10)];
      forall i | 0 <= i < |s| ensures s[|s| - 1 - i] as int == '0' as int + n / Pow10(i) % 10 {
        if i > 0 {
          assert s[|s| - 1 - i] == init[|init| - 1 - (i - 1)];
          DivDiv(n, 10, Pow10(i - 1));
        }
      }
    } else {
      assert Pow10(0) == 1;
      assert Pow10(1) == 10 * Pow10(0);
    }
  }

  /** Every canonical numeral is how some number is printed. */
  lemma {:induction false} CanonicalIsDecimal(s: string)
    requires IsCanonical(s)
    ensures Decimal(DecimalValue(s)) == s
  {
    var n := DecimalValue(s);
    var init := s[..|s| - 1];
    var last := s[|s| - 1];
    assert s == init + [last];
    if |s| == 1 {
      assert DecimalValue(init) == 0;
      assert DigitChar(DigitValue(last)) == last;
    } else {
      assert init[0] == s[0];
      CanonicalIsDecimal(init);
      PositiveNumeral(init);
      assert n / 10 == DecimalValue(init) && n % 10 == DigitValue(last);
      assert DigitChar(DigitValue(last)) == last;
    }
  }

  lemma {:induction false} PositiveNumeral(s: string)
    requires s != [] && AllDigits(s) && s[0] != '0'
    ensures DecimalValue(s) > 0
  {
    if |s| > 1 {
      assert s[..|s| - 1][0] == s[0];
      PositiveNumeral(s[..|s| - 1]);
    } else {
      assert s[..0] == [];
    }
  }

  /** Reading a plain decimal numeral, with or without a minus sign, gives the number it is the
      numeral of, if that fits; anything else is left to `otherForms`. */
  lemma ParseAmountIs(otherForms: string -> Option<int>, s: string)
    ensures var r := ParseAmount(otherForms, s);
            && (IsCanonical(s) ==> exists n: nat :: IsNumeral(s, n) && r == if n < TWO_255 then Some(n) else None)
            && (s != [] && s[0] == '-' && IsCanonical(s[1..]) ==>
                  exists n: nat :: IsNumeral(s[1..], n) && r == if n < TWO_255 then Some(0 - n) else None)
            && (!IsCanonical(s) && !(s != [] && s[0] == '-' && IsCanonical(s[1..])) ==>
                  r == if otherForms(s).Some? && InRange(otherForms(s).value) then otherForms(s) else None)
  {
    if IsCanonical(s) {
      CanonicalIsDecimal(s);
      DecimalIsNumeral(DecimalValue(s));
    } else if s != [] && s[0] == '-' && IsCanonical(s[1..]) {
      CanonicalIsDecimal(s[1..]);
      DecimalIsNumeral(DecimalValue(s[1..]));
    }
    if s != [] && s[0] == '-' {
      MinusIsNotCanonical(s);
    }
  }

  /** What a contract is shown: the same denominations in the same order, each with its amount in
      decimal. */
  lemma ShownCoins(coins: seq<Coin>, i: nat)
    requires i < |coins|
    ensures |ToWasm(coins)| == |coins|
    ensures var c := ToWasm(coins)[i];
            && c.denom == coins[i].denom
            && (coins[i].amount >= 0 ==> IsNumeral(c.amount, coins[i].amount))
            && (coins[i].amount < 0 ==> c.amount != [] && c.amount[0] == '-' && IsNumeral(c.amount[1..], -coins[i].amount))
  {
    var x := coins[i].amount;
    DecimalIsNumeral(if x < 0 then -x else x);
  }

  /** `sdk.Int` has 255 bits. */
  lemma TwoTo255()
    ensures TWO_255 == 128 * Pow256(31)
  {
    assert Pow256(8) == TWO_64 by {
      Pow256Of8();
    }
    assert Pow256(16) == TWO_64 * TWO_64 by {
      assert Pow256(16) == 256 * 256 * 256 * 256 * 256 * 256 * 256 * 256 * Pow256(8);
    }
    assert Pow256(24) == TWO_64 * TWO_64 * TWO_64 by {
      assert Pow256(24) == 256 * 256 * 256 * 256 * 256 * 256 * 256 * 256 * Pow256(16);
    }
    assert Pow256(31) == 256 * 256 * 256 * 256 * 256 * 256 * 256 * Pow256(24);
  }

  lemma MinusIsNotCanonical(s: string)
    requires s != [] && s[0] == '-'
    ensures !IsCanonical(s)
  {
    assert !IsDigit(s[0]);
  }

  /** Printing then parsing an amount gives it back exactly when it fits the integer type. */
  lemma AmountRoundTrip(otherForms: string -> Option<int>, x: int)
    ensures ParseAmount(otherForms, PrintAmount(x)) == if InRange(x) then Some(x) else None
  {
    var n: nat := if x < 0 then -x else x;
    var s := Decimal(n);
    DecimalRoundTrip(n);
    assert IsCanonical(s);
    if x < 0 {
      var t := "-" + s;
      MinusIsNotCanonical(t);
      assert t[1..] == s;
    }
  }

  // ------------------------------------------------------------------ coin lists

  function ToWasm(coins: seq<Coin>): (r: seq<WasmCoin>)
    ensures |r| == |coins|
  {
    seq(|coins|, i requires 0 <= i < |coins| => WasmCoin(coins[i].denom, PrintAmount(coins[i].amount)))
  }

  /** The first unreadable amount makes the whole list unreadable. */
  function FromWasm(otherForms: string -> Option<int>, coins: seq<WasmCoin>): (r: Option<seq<Coin>>)
    ensures r.Some? ==> |r.value| == |coins|
    ensures r.Some? <==> forall c :: c in coins ==> ParseAmount(otherForms, c.amount).Some?
    ensures r.Some? ==> forall i :: 0 <= i < |coins| ==>
              r.value[i].denom == coins[i].denom && Some(r.value[i].amount) == ParseAmount(otherForms, coins[i].amount)
  {
    if coins == [] then Some([])
    else
      var last := coins[|coins| - 1];
      var init := coins[..|coins| - 1];
      assert coins == init + [last];
      var rest := FromWasm(otherForms, init);
      var amount := ParseAmount(otherForms, last.amount);
      if rest.None? || amount.None? then None
      else Some(rest.value + [Coin(last.denom, amount.value)])
  }

  /** A contract that sends back the coins it was shown sends the same coins in the same order;
      that holds for a list exactly when every amount fits the integer type. */
  lemma CoinsRoundTrip(otherForms: string -> Option<int>, coins: seq<Coin>)
    ensures FromWasm(otherForms, ToWasm(coins)) ==
            if forall c :: c in coins ==> InRange(c.amount) then Some(coins) else None
  {
    var wasm := ToWasm(coins);
    forall i | 0 <= i < |coins|
      ensures ParseAmount(otherForms, wasm[i].amount) ==
              if InRange(coins[i].amount) then Some(coins[i].amount) else None
    {
      AmountRoundTrip(otherForms, coins[i].amount);
    }
    if c :| c in coins && !InRange(c.amount) {
      var i :| 0 <= i < |coins| && coins[i] == c;
      assert wasm[i] in wasm;
    } else {
      forall c | c in wasm ensures ParseAmount(otherForms, c.amount).Some? {
        var i :| 0 <= i < |wasm| && wasm[i] == c;
        assert coins[i] in coins;
      }
      var back := FromWasm(otherForms, wasm).value;
      forall i | 0 <= i < |coins| ensures back[i] == coins[i] {
        assert coins[i] in coins;
      }
      assert back == coins;
    }
  }

  /** NewWasmCoins. */
  method NewWasmCoins(cosmosCoins: seq<Coin>) returns (wasmCoins: seq<WasmCoin>)
    ensures wasmCoins == ToWasm(cosmosCoins)
  {
    wasmCoins := [];
    for i := 0 to |cosmosCoins|
      invariant wasmCoins == ToWasm(cosmosCoins)[..i]
    {
      var coin := cosmosCoins[i];
      wasmCoins := wasmCoins + [WasmCoin(coin.denom, PrintAmount(coin.amount))];
    }
  }

  /** The parsing loop of convertCosmosSendMsg. */
  method ParseCoins(otherForms: string -> Option<int>, coins: seq<WasmCoin>) returns (r: Option<seq<Coin>>)
    ensures r == FromWasm(otherForms, coins)
  {
    var toSend: seq<Coin> := [];
    for i := 0 to |coins|
      invariant FromWasm(otherForms, coins[..i]) == Some(toSend)
    {
      assert coins[..i + 1][..i] == coins[..i];
      var amount := ParseAmount(otherForms, coins[i].amount);
      if amount.None? {
        assert coins[i] in coins;
        return None;
      }
      toSend := toSend + [Coin(coins[i].denom, amount.value)];
    }
    assert coins[..|coins|] == coins;
    return Some(toSend);
  }

  /** `Coins.IsValid`: positive amounts of well-formed, strictly ascending denominations. */
  predicate IsValid(denomOk: Denom -> bool, coins: seq<Coin>) {
    && (forall i :: 0 <= i < |coins| ==> coins[i].amount > 0 && denomOk(coins[i].denom))
    && (forall i, j :: 0 <= i < j < |coins| ==> Less(coins[i].denom, coins[j].denom))
  }

  /** How much of a denomination a coin list adds up to. */
  function AmountOf(coins: seq<Coin>, d: Denom): int {
    if coins == [] then 0
    else (if coins[0].denom == d then coins[0].amount else 0) + AmountOf(coins[1..], d)
  }

  function Denoms(coins: seq<Coin>): set<Denom> {
    set c | c in coins :: c.denom
  }

  lemma {:induction false} AmountOfNonNegative(coins: seq<Coin>, d: Denom)
    requires forall i :: 0 <= i < |coins| ==> coins[i].amount > 0
    ensures AmountOf(coins, d) >= 0
    ensures d !in Denoms(coins) ==> AmountOf(coins, d) == 0
  {
    if coins != [] {
      assert coins[0] in coins;
      AmountOfNonNegative(coins[1..], d);
    }
  }

  /** In a list of ascending denominations each coin stands for its denomination alone. */
  lemma {:induction false} AmountOfAt(coins: seq<Coin>, i: nat)
    requires i < |coins|
    requires forall j, k :: 0 <= j < k < |coins| ==> Less(coins[j].denom, coins[k].denom)
    ensures AmountOf(coins, coins[i].denom) == coins[i].amount
  {
    if i == 0 {
      forall c | c in coins[1..] ensures c.denom != coins[0].denom {
        var k :| 0 <= k < |coins[1..]| && coins[1..][k] == c;
        assert coins[k + 1] == c;
        LessIrreflexive(c.denom);
      }
      NoAmountOf(coins[1..], coins[0].denom);
    } else {
      LessIrreflexive(coins[i].denom);
      AmountOfAt(coins[1..], i - 1);
    }
  }

  lemma {:induction false} NoAmountOf(coins: seq<Coin>, d: Denom)
    requires forall c :: c in coins ==> c.denom != d
    ensures AmountOf(coins, d) == 0
  {
    if coins != [] {
      assert coins[0] in coins;
      NoAmountOf(coins[1..], d);
    }
  }
}
