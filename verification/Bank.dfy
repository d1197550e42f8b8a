/** Account balances. The bank module is not part of the repository; what follows is the
    contract the keeper relies on: a transfer is either refused and moves nothing, or takes
    its coins from the payers and gives them to the receivers, creating missing accounts. */
module Bank {
  import opened Bytes
  import opened Outcome
  import opened Coins

  type Balances = map<Denom, int>

  /** An account exists when its address is a key. */
  type Ledger = map<bytes, Balances>

  datatype Party = Party(addr: bytes, coins: seq<Coin>)

  function Amount(b: Balances, d: Denom): int {
    if d in b then b[d] else 0
  }

  function Balance(l: Ledger, a: bytes, d: Denom): int {
    if a in l then Amount(l[a], d) else 0
  }

  ghost predicate NonNegative(l: Ledger) {
    forall a, d :: Balance(l, a, d) >= 0
  }

  function Held(l: Ledger, a: bytes): Balances {
    if a in l then l[a] else map[]
  }

  /** Adds `sign` times the coins to one account. */
  function Shift(l: Ledger, a: bytes, coins: seq<Coin>, sign: int): Ledger {
    var held := Held(l, a);
    l[a := map d | d in held.Keys + Denoms(coins) :: Amount(held, d) + sign * AmountOf(coins, d)]
  }

  predicate Covers(l: Ledger, a: bytes, coins: seq<Coin>) {
    forall d :: d in Denoms(coins) ==> AmountOf(coins, d) <= Balance(l, a, d)
  }

  function SubtractCoins(denomOk: Denom -> bool, l: Ledger, a: bytes, coins: seq<Coin>): Out<Ledger> {
    if !IsValid(denomOk, coins) then Err(InvalidCoins)
    else if !Covers(l, a, coins) then Err(InsufficientCoins)
    else Ok(Shift(l, a, coins, -1))
  }

  function AddCoins(denomOk: Denom -> bool, l: Ledger, a: bytes, coins: seq<Coin>): Out<Ledger> {
    if !IsValid(denomOk, coins) then Err(InvalidCoins) else Ok(Shift(l, a, coins, 1))
  }

  function Send(denomOk: Denom -> bool, l: Ledger, from: bytes, to: bytes, coins: seq<Coin>): Out<Ledger> {
    var taken :- SubtractCoins(denomOk, l, from, coins);
    AddCoins(denomOk, taken, to, coins)
  }

  // ------------------------------------------------------------------ multisend

  function SumOf(parties: seq<Party>, d: Denom): int {
    if parties == [] then 0 else AmountOf(parties[0].coins, d) + SumOf(parties[1..], d)
  }

  function DenomsOf(parties: seq<Party>): set<Denom> {
    set p, d | p in parties && d in Denoms(p.coins) :: d
  }

  /** Inputs and outputs are well-formed and add up to the same coins. */
  predicate Balanced(denomOk: Denom -> bool, ins: seq<Party>, outs: seq<Party>) {
    && (forall p :: p in ins + outs ==> p.addr != [] && p.coins != [] && IsValid(denomOk, p.coins))
    && (forall d :: d in DenomsOf(ins) + DenomsOf(outs) ==> SumOf(ins, d) == SumOf(outs, d))
  }

  function TakeAll(denomOk: Denom -> bool, l: Ledger, ins: seq<Party>): Out<Ledger>
    decreases |ins|
  {
    if ins == [] then Ok(l)
    else
      var l1 :- SubtractCoins(denomOk, l, ins[0].addr, ins[0].coins);
      TakeAll(denomOk, l1, ins[1..])
  }

  function GiveAll(denomOk: Denom -> bool, l: Ledger, outs: seq<Party>): Out<Ledger>
    decreases |outs|
  {
    if outs == [] then Ok(l)
    else
      var l1 :- AddCoins(denomOk, l, outs[0].addr, outs[0].coins);
      GiveAll(denomOk, l1, outs[1..])
  }

  function MultiSend(denomOk: Denom -> bool, l: Ledger, ins: seq<Party>, outs: seq<Party>): Out<Ledger> {
    if !Balanced(denomOk, ins, outs) then Err(InvalidCoins)
    else
      var taken :- TakeAll(denomOk, l, ins);
      GiveAll(denomOk, taken, outs)
  }

  // ------------------------------------------------------------------ totals

  ghost function SumOver(l: Ledger, keys: set<bytes>, d: Denom): int {
    if keys == {} then 0
    else
      var a :| a in keys;
      Balance(l, a, d) + SumOver(l, keys - {a}, d)
  }

  /** The supply of a denomination over all accounts. */
  ghost function Total(l: Ledger, d: Denom): int {
    SumOver(l, l.Keys, d)
  }

  lemma {:induction false} SumOverSplit(l: Ledger, keys: set<bytes>, a: bytes, d: Denom)
    requires a in keys
    ensures SumOver(l, keys, d) == Balance(l, a, d) + SumOver(l, keys - {a}, d)
    decreases keys
  {
    var b :| b in keys && SumOver(l, keys, d) == Balance(l, b, d) + SumOver(l, keys - {b}, d);
    if b != a {
      SumOverSplit(l, keys - {b}, a, d);
      SumOverSplit(l, keys - {a}, b, d);
      assert keys - {b} - {a} == keys - {a} - {b};
    }
  }

  lemma {:induction false} SumOverAgrees(l: Ledger, m: Ledger, keys: set<bytes>, d: Denom)
    requires forall a :: a in keys ==> Balance(l, a, d) == Balance(m, a, d)
    ensures SumOver(l, keys, d) == SumOver(m, keys, d)
    decreases keys
  {
    if keys != {} {
      var a :| a in keys;
      SumOverSplit(l, keys, a, d);
      SumOverSplit(m, keys, a, d);
      SumOverAgrees(l, m, keys - {a}, d);
    }
  }

  lemma TotalAfterUpdate(l: Ledger, a: bytes, b: Balances, d: Denom)
    ensures Total(l[a := b], d) == Total(l, d) - Balance(l, a, d) + Amount(b, d)
  {
    var m := l[a := b];
    SumOverSplit(m, m.Keys, a, d);
    SumOverAgrees(l, m, l.Keys - {a}, d);
    assert m.Keys - {a} == l.Keys - {a};
    if a in l {
      SumOverSplit(l, l.Keys, a, d);
    } else {
      assert l.Keys - {a} == l.Keys;
    }
  }

  lemma ShiftTotal(l: Ledger, a: bytes, coins: seq<Coin>, sign: int, d: Denom)
    requires forall i :: 0 <= i < |coins| ==> coins[i].amount > 0
    ensures Total(Shift(l, a, coins, sign), d) == Total(l, d) + sign * AmountOf(coins, d)
  {
    AmountOfNonNegative(coins, d);
    TotalAfterUpdate(l, a, Shift(l, a, coins, sign)[a], d);
  }

  lemma ShiftBalance(l: Ledger, a: bytes, coins: seq<Coin>, sign: int, x: bytes, d: Denom)
    requires forall i :: 0 <= i < |coins| ==> coins[i].amount > 0
    ensures Balance(Shift(l, a, coins, sign), x, d) ==
            Balance(l, x, d) + if x == a then sign * AmountOf(coins, d) else 0
  {
    AmountOfNonNegative(coins, d);
  }

  // ------------------------------------------------------------------ what transfers keep

  /** A transfer that goes through: nothing is minted or burnt, no balance turns negative, no
      account disappears, and nobody outside `payers` has less. */
  ghost predicate Sound(l: Ledger, m: Ledger, payers: set<bytes>) {
    && (forall d :: Total(m, d) == Total(l, d))
    && (NonNegative(l) ==> NonNegative(m))
    && l.Keys <= m.Keys
    && (forall a, d :: Balance(m, a, d) < Balance(l, a, d) ==> a in payers)
  }

  /** Half of a transfer: `sign * sum` enters the ledger. */
  ghost predicate Moved(l: Ledger, m: Ledger, change: Denom -> int, payers: set<bytes>) {
    && (forall d :: Total(m, d) == Total(l, d) + change(d))
    && (NonNegative(l) ==> NonNegative(m))
    && l.Keys <= m.Keys
    && (forall a, d :: Balance(m, a, d) < Balance(l, a, d) ==> a in payers)
  }

  lemma SubtractMoves(denomOk: Denom -> bool, l: Ledger, a: bytes, coins: seq<Coin>)
    requires SubtractCoins(denomOk, l, a, coins).Ok?
    ensures Moved(l, SubtractCoins(denomOk, l, a, coins).value, d => -AmountOf(coins, d), {a})
  {
    var m := Shift(l, a, coins, -1);
    forall d ensures Total(m, d) == Total(l, d) - AmountOf(coins, d) {
      ShiftTotal(l, a, coins, -1, d);
    }
    forall x, d
      ensures Balance(m, x, d) < Balance(l, x, d) ==> x == a
      ensures Balance(l, x, d) >= 0 ==> Balance(m, x, d) >= 0
    {
      ShiftBalance(l, a, coins, -1, x, d);
      AmountOfNonNegative(coins, d);
    }
  }

  lemma AddMoves(denomOk: Denom -> bool, l: Ledger, a: bytes, coins: seq<Coin>)
    requires AddCoins(denomOk, l, a, coins).Ok?
    ensures Moved(l, AddCoins(denomOk, l, a, coins).value, d => AmountOf(coins, d), {})
    ensures a in AddCoins(denomOk, l, a, coins).value
  {
    var m := Shift(l, a, coins, 1);
    forall d ensures Total(m, d) == Total(l, d) + AmountOf(coins, d) {
      ShiftTotal(l, a, coins, 1, d);
    }
    forall x, d ensures Balance(m, x, d) >= Balance(l, x, d) {
      ShiftBalance(l, a, coins, 1, x, d);
      AmountOfNonNegative(coins, d);
    }
  }

  function Addrs(parties: seq<Party>): set<bytes> {
    set p | p in parties :: p.addr
  }

  lemma {:induction false} TakeAllMoves(denomOk: Denom -> bool, l: Ledger, ins: seq<Party>)
    requires TakeAll(denomOk, l, ins).Ok?
    ensures Moved(l, TakeAll(denomOk, l, ins).value, d => -SumOf(ins, d), Addrs(ins))
    decreases |ins|
  {
    if ins != [] {
      SubtractMoves(denomOk, l, ins[0].addr, ins[0].coins);
      var l1 := SubtractCoins(denomOk, l, ins[0].addr, ins[0].coins).value;
      TakeAllMoves(denomOk, l1, ins[1..]);
      assert ins[0].addr in Addrs(ins) && Addrs(ins[1..]) <= Addrs(ins);
    }
  }

  lemma {:induction false} GiveAllMoves(denomOk: Denom -> bool, l: Ledger, outs: seq<Party>)
    requires GiveAll(denomOk, l, outs).Ok?
    ensures Moved(l, GiveAll(denomOk, l, outs).value, d => SumOf(outs, d), {})
    decreases |outs|
  {
    if outs != [] {
      AddMoves(denomOk, l, outs[0].addr, outs[0].coins);
      var l1 := AddCoins(denomOk, l, outs[0].addr, outs[0].coins).value;
      GiveAllMoves(denomOk, l1, outs[1..]);
    }
  }

  lemma {:induction false} SumOfOtherDenoms(parties: seq<Party>, d: Denom)
    requires d !in DenomsOf(parties)
    requires forall p :: p in parties ==> forall i :: 0 <= i < |p.coins| ==> p.coins[i].amount > 0
    ensures SumOf(parties, d) == 0
  {
    if parties != [] {
      assert parties[0] in parties;
      assert d !in DenomsOf(parties[1..]);
      AmountOfNonNegative(parties[0].coins, d);
      SumOfOtherDenoms(parties[1..], d);
    }
  }

  /** A send only ever takes from its sender, and leaves an account at the receiver. */
  lemma SendIsSound(denomOk: Denom -> bool, l: Ledger, from: bytes, to: bytes, coins: seq<Coin>)
    requires Send(denomOk, l, from, to, coins).Ok?
    ensures Sound(l, Send(denomOk, l, from, to, coins).value, {from})
    ensures to in Send(denomOk, l, from, to, coins).value
  {
    SubtractMoves(denomOk, l, from, coins);
    AddMoves(denomOk, SubtractCoins(denomOk, l, from, coins).value, to, coins);
  }

  /** A multisend only ever takes from its inputs. */
  lemma MultiSendIsSound(denomOk: Denom -> bool, l: Ledger, ins: seq<Party>, outs: seq<Party>)
    requires MultiSend(denomOk, l, ins, outs).Ok?
    ensures Sound(l, MultiSend(denomOk, l, ins, outs).value, Addrs(ins))
  {
    TakeAllMoves(denomOk, l, ins);
    GiveAllMoves(denomOk, TakeAll(denomOk, l, ins).value, outs);
    forall d ensures SumOf(ins, d) == SumOf(outs, d) {
      if d !in DenomsOf(ins) + DenomsOf(outs) {
        SumOfOtherDenoms(ins, d);
        SumOfOtherDenoms(outs, d);
      }
    }
  }

  /** Exactly what a send does to every balance. */
  lemma SendMoves(denomOk: Denom -> bool, l: Ledger, from: bytes, to: bytes, coins: seq<Coin>, x: bytes, d: Denom)
    requires Send(denomOk, l, from, to, coins).Ok?
    ensures var m := Send(denomOk, l, from, to, coins).value;
            && AmountOf(coins, d) >= 0
            && Balance(m, x, d) == Balance(l, x, d)
                                   - (if x == from then AmountOf(coins, d) else 0)
                                   + (if x == to then AmountOf(coins, d) else 0)
  {
    hide Shift, Balance;
    AmountOfNonNegative(coins, d);
    ShiftBalance(l, from, coins, -1, x, d);
    ShiftBalance(SubtractCoins(denomOk, l, from, coins).value, to, coins, 1, x, d);
  }

  /** What one address puts in or takes out of a multisend. */
  function ShareOf(parties: seq<Party>, x: bytes, d: Denom): int {
    if parties == [] then 0
    else (if parties[0].addr == x then AmountOf(parties[0].coins, d) else 0) + ShareOf(parties[1..], x, d)
  }

  lemma {:induction false} TakeAllShares(denomOk: Denom -> bool, l: Ledger, ins: seq<Party>, x: bytes, d: Denom)
    requires TakeAll(denomOk, l, ins).Ok?
    ensures Balance(TakeAll(denomOk, l, ins).value, x, d) == Balance(l, x, d) - ShareOf(ins, x, d)
    decreases |ins|
  {
    hide Shift, Balance;
    if ins != [] {
      ShiftBalance(l, ins[0].addr, ins[0].coins, -1, x, d);
      TakeAllShares(denomOk, SubtractCoins(denomOk, l, ins[0].addr, ins[0].coins).value, ins[1..], x, d);
    }
  }

  lemma {:induction false} GiveAllShares(denomOk: Denom -> bool, l: Ledger, outs: seq<Party>, x: bytes, d: Denom)
    requires GiveAll(denomOk, l, outs).Ok?
    ensures Balance(GiveAll(denomOk, l, outs).value, x, d) == Balance(l, x, d) + ShareOf(outs, x, d)
    decreases |outs|
  {
    hide Shift, Balance;
    if outs != [] {
      ShiftBalance(l, outs[0].addr, outs[0].coins, 1, x, d);
      GiveAllShares(denomOk, AddCoins(denomOk, l, outs[0].addr, outs[0].coins).value, outs[1..], x, d);
    }
  }

  /** Exactly what a multisend does to every balance. */
  lemma MultiSendMoves(denomOk: Denom -> bool, l: Ledger, ins: seq<Party>, outs: seq<Party>, x: bytes, d: Denom)
    requires MultiSend(denomOk, l, ins, outs).Ok?
    ensures Balance(MultiSend(denomOk, l, ins, outs).value, x, d)
            == Balance(l, x, d) - ShareOf(ins, x, d) + ShareOf(outs, x, d)
  {
    hide Balanced, Balance;
    TakeAllShares(denomOk, l, ins, x, d);
    GiveAllShares(denomOk, TakeAll(denomOk, l, ins).value, outs, x, d);
  }

  // ------------------------------------------------------------------ when transfers succeed

  /** Positive amounts of well-formed denominations that ascend strictly. */
  ghost predicate WellFormed(denomOk: Denom -> bool, coins: seq<Coin>) {
    && (forall i :: 0 <= i < |coins| ==> coins[i].amount > 0 && denomOk(coins[i].denom))
    && (forall i, j :: 0 <= i < j < |coins| ==> Before(coins[i].denom, coins[j].denom))
  }

  /** The account has enough for each coin. */
  ghost predicate HasCoins(l: Ledger, a: bytes, coins: seq<Coin>) {
    forall i :: 0 <= i < |coins| ==> Balance(l, a, coins[i].denom) >= coins[i].amount
  }

  lemma ValidIff(denomOk: Denom -> bool, coins: seq<Coin>)
    ensures IsValid(denomOk, coins) <==> WellFormed(denomOk, coins)
  {
    forall i, j | 0 <= i < j < |coins|
      ensures Less(coins[i].denom, coins[j].denom) <==> Before(coins[i].denom, coins[j].denom)
    {
      LessIff(coins[i].denom, coins[j].denom);
    }
  }

  lemma CoversIff(denomOk: Denom -> bool, l: Ledger, a: bytes, coins: seq<Coin>)
    requires IsValid(denomOk, coins)
    ensures Covers(l, a, coins) <==> HasCoins(l, a, coins)
  {
    forall i | 0 <= i < |coins| ensures coins[i].denom in Denoms(coins) && AmountOf(coins, coins[i].denom) == coins[i].amount {
      assert coins[i] in coins;
      AmountOfAt(coins, i);
    }
    if HasCoins(l, a, coins) {
      forall d | d in Denoms(coins) ensures AmountOf(coins, d) <= Balance(l, a, d) {
        var i :| 0 <= i < |coins| && coins[i].denom == d;
      }
    }
  }

  /** How a send ends, for all coin lists and accounts. */
  lemma SendEnds(denomOk: Denom -> bool, l: Ledger, from: bytes, to: bytes, coins: seq<Coin>)
    ensures var r := Send(denomOk, l, from, to, coins);
            && (!WellFormed(denomOk, coins) ==> r == Err(InvalidCoins))
            && (WellFormed(denomOk, coins) && !HasCoins(l, from, coins) ==> r == Err(InsufficientCoins))
            && (WellFormed(denomOk, coins) && HasCoins(l, from, coins) ==> r.Ok? && r.value.Keys == l.Keys + {from, to})
  {
    hide WellFormed, HasCoins;
    ValidIff(denomOk, coins);
    if IsValid(denomOk, coins) {
      CoversIff(denomOk, l, from, coins);
    }
  }

  /** What a well-formed coin list adds up to, in any denomination. */
  lemma WellFormedAmount(denomOk: Denom -> bool, coins: seq<Coin>, d: Denom)
    requires WellFormed(denomOk, coins)
    ensures forall i :: 0 <= i < |coins| && coins[i].denom == d ==> AmountOf(coins, d) == coins[i].amount
    ensures (forall i :: 0 <= i < |coins| ==> coins[i].denom != d) ==> AmountOf(coins, d) == 0
  {
    ValidIff(denomOk, coins);
    forall i | 0 <= i < |coins| && coins[i].denom == d ensures AmountOf(coins, d) == coins[i].amount {
      AmountOfAt(coins, i);
    }
    if forall i :: 0 <= i < |coins| ==> coins[i].denom != d {
      NoAmountOf(coins, d);
    }
  }

  /** Each input in turn, what its address put in before included, is covered by that address. */
  ghost predicate InputsCovered(l: Ledger, ins: seq<Party>) {
    forall i, c :: 0 <= i < |ins| && c in ins[i].coins ==>
      ShareOf(ins[..i], ins[i].addr, c.denom) + c.amount <= Balance(l, ins[i].addr, c.denom)
  }

  /** The parties of a multisend are named, pay or get something, and the sums agree. */
  ghost predicate FairDeal(denomOk: Denom -> bool, ins: seq<Party>, outs: seq<Party>) {
    && (forall p :: p in ins || p in outs ==> p.addr != [] && p.coins != [] && WellFormed(denomOk, p.coins))
    && (forall d :: SumOf(ins, d) == SumOf(outs, d))
  }

  lemma BalancedIff(denomOk: Denom -> bool, ins: seq<Party>, outs: seq<Party>)
    ensures Balanced(denomOk, ins, outs) <==> FairDeal(denomOk, ins, outs)
  {
    hide WellFormed;
    forall p: Party ensures IsValid(denomOk, p.coins) <==> WellFormed(denomOk, p.coins) {
      ValidIff(denomOk, p.coins);
    }
    if forall p :: p in ins + outs ==> IsValid(denomOk, p.coins) {
      forall d | d !in DenomsOf(ins) + DenomsOf(outs) ensures SumOf(ins, d) == SumOf(outs, d) {
        SumOfOtherDenoms(ins, d);
        SumOfOtherDenoms(outs, d);
      }
    }
  }

  lemma InputsCoveredCons(denomOk: Denom -> bool, l: Ledger, ins: seq<Party>)
    requires ins != [] && SubtractCoins(denomOk, l, ins[0].addr, ins[0].coins).Ok?
    ensures InputsCovered(l, ins) <==> InputsCovered(SubtractCoins(denomOk, l, ins[0].addr, ins[0].coins).value, ins[1..])
  {
    hide Shift, Balance;
    var first, rest := ins[0], ins[1..];
    var l1 := SubtractCoins(denomOk, l, first.addr, first.coins).value;
    FirstIsCovered(denomOk, l, first);
    forall i, c | 0 <= i < |rest| && c in rest[i].coins
      ensures ShareOf(rest[..i], rest[i].addr, c.denom) + c.amount <= Balance(l1, rest[i].addr, c.denom)
              <==> ShareOf(ins[..i + 1], ins[i + 1].addr, c.denom) + c.amount <= Balance(l, ins[i + 1].addr, c.denom)
    {
      ShiftBalance(l, first.addr, first.coins, -1, rest[i].addr, c.denom);
      assert ins[..i + 1][1..] == rest[..i];
    }
    if InputsCovered(l1, rest) {
      forall i, c | 0 <= i < |ins| && c in ins[i].coins
        ensures ShareOf(ins[..i], ins[i].addr, c.denom) + c.amount <= Balance(l, ins[i].addr, c.denom)
      {
        if i > 0 {
          assert rest[i - 1] == ins[i];
        }
      }
    }
    if InputsCovered(l, ins) {
      forall i, c | 0 <= i < |rest| && c in rest[i].coins
        ensures ShareOf(rest[..i], rest[i].addr, c.denom) + c.amount <= Balance(l1, rest[i].addr, c.denom)
      {
        assert rest[i] == ins[i + 1];
      }
    }
  }

  lemma FirstIsCovered(denomOk: Denom -> bool, l: Ledger, p: Party)
    requires IsValid(denomOk, p.coins) && Covers(l, p.addr, p.coins)
    ensures forall c :: c in p.coins ==> c.amount <= Balance(l, p.addr, c.denom)
  {
    CoversIff(denomOk, l, p.addr, p.coins);
    forall c | c in p.coins ensures c.amount <= Balance(l, p.addr, c.denom) {
      var i :| 0 <= i < |p.coins| && p.coins[i] == c;
    }
  }

  lemma {:induction false} TakeAllEnds(denomOk: Denom -> bool, l: Ledger, ins: seq<Party>)
    requires forall p :: p in ins ==> IsValid(denomOk, p.coins)
    ensures var r := TakeAll(denomOk, l, ins);
            if InputsCovered(l, ins) then r.Ok? && r.value.Keys == l.Keys + Addrs(ins) else r == Err(InsufficientCoins)
    decreases |ins|
  {
    hide Shift, InputsCovered;
    if ins == [] {
      NoInputs(l);
    } else {
      assert ins[0] in ins;
      var r := SubtractCoins(denomOk, l, ins[0].addr, ins[0].coins);
      if r.Ok? {
        InputsCoveredCons(denomOk, l, ins);
        TakeAllEnds(denomOk, r.value, ins[1..]);
        FirstAddr(ins);
        ShiftKeys(l, ins[0].addr, ins[0].coins, -1);
      } else {
        FirstIsNotCovered(denomOk, l, ins);
      }
    }
  }

  lemma ShiftKeys(l: Ledger, a: bytes, coins: seq<Coin>, sign: int)
    ensures Shift(l, a, coins, sign).Keys == l.Keys + {a}
  {
  }

  lemma FirstAddr(parties: seq<Party>)
    requires parties != []
    ensures Addrs(parties) == {parties[0].addr} + Addrs(parties[1..])
  {
    assert parties == [parties[0]] + parties[1..];
  }

  lemma NoInputs(l: Ledger)
    ensures InputsCovered(l, [])
  {
  }

  lemma FirstIsNotCovered(denomOk: Denom -> bool, l: Ledger, ins: seq<Party>)
    requires ins != [] && IsValid(denomOk, ins[0].coins) && !Covers(l, ins[0].addr, ins[0].coins)
    ensures !InputsCovered(l, ins)
  {
    CoversIff(denomOk, l, ins[0].addr, ins[0].coins);
    var i :| 0 <= i < |ins[0].coins| && Balance(l, ins[0].addr, ins[0].coins[i].denom) < ins[0].coins[i].amount;
    var c := ins[0].coins[i];
    assert c in ins[0].coins && ShareOf(ins[..0], ins[0].addr, c.denom) == 0;
  }

  lemma {:induction false} GiveAllEnds(denomOk: Denom -> bool, l: Ledger, outs: seq<Party>)
    requires forall p :: p in outs ==> IsValid(denomOk, p.coins)
    ensures GiveAll(denomOk, l, outs).Ok? && GiveAll(denomOk, l, outs).value.Keys == l.Keys + Addrs(outs)
    decreases |outs|
  {
    if outs != [] {
      assert outs[0] in outs;
      FirstAddr(outs);
      GiveAllEnds(denomOk, AddCoins(denomOk, l, outs[0].addr, outs[0].coins).value, outs[1..]);
    }
  }

  /** How a multisend ends, for all parties. */
  lemma MultiSendEnds(denomOk: Denom -> bool, l: Ledger, ins: seq<Party>, outs: seq<Party>)
    ensures var r := MultiSend(denomOk, l, ins, outs);
            && (!FairDeal(denomOk, ins, outs) ==> r == Err(InvalidCoins))
            && (FairDeal(denomOk, ins, outs) && !InputsCovered(l, ins) ==> r == Err(InsufficientCoins))
            && (FairDeal(denomOk, ins, outs) && InputsCovered(l, ins) ==>
                  r.Ok? && r.value.Keys == l.Keys + Addrs(ins) + Addrs(outs))
  {
    hide FairDeal, InputsCovered, IsValid;
    BalancedIff(denomOk, ins, outs);
    if Balanced(denomOk, ins, outs) {
      forall p | p in ins || p in outs ensures IsValid(denomOk, p.coins) {
        assert p in ins + outs;
      }
      TakeAllEnds(denomOk, l, ins);
      var taken := TakeAll(denomOk, l, ins);
      if taken.Ok? {
        GiveAllEnds(denomOk, taken.value, outs);
      }
    }
  }
}
