/** Gas conversion between the SDK meter and a contract (gasForContract, consumeGas). */
module Gas {
  import opened Bytes

  const GAS_MULTIPLIER: int := 100
  const MAX_GAS: int := 900_000_000

  /** The SDK's meters. `Unmetered` is the infinite meter of queries and genesis. */
  datatype Meter = Unmetered | Metered(limit: uint64, consumed: nat)

  /** gasForContract: `(limit - consumed) * GasMultiplier` in wrapping uint64 arithmetic, capped. */
  function GasForContract(limit: uint64, consumed: nat): uint64 {
    var remaining := ((limit - consumed) * GAS_MULTIPLIER) % TWO_64;
    if remaining > MAX_GAS then MAX_GAS else remaining
  }

  /** consumeGas charges the quotient. */
  function ChargeFor(used: nat): nat {
    used / GAS_MULTIPLIER
  }

  function Left(m: Meter): nat {
    if m.Metered? && m.consumed <= m.limit then m.limit - m.consumed else 0
  }

  /** A contract is never granted more than the meter can pay for, even when the product wraps. */
  lemma GrantNeverExceedsMeter(limit: uint64, consumed: nat)
    requires consumed <= limit
    ensures GasForContract(limit, consumed) <= (limit - consumed) * GAS_MULTIPLIER
    ensures ChargeFor(GasForContract(limit, consumed)) <= limit - consumed
  {
    WrapShrinks((limit - consumed) * GAS_MULTIPLIER);
  }

  lemma WrapShrinks(x: nat)
    ensures x % TWO_64 <= x
    ensures x % TWO_64 == x <==> x < TWO_64
  {
    if x >= TWO_64 {
      assert x == TWO_64 * (x / TWO_64) + x % TWO_64;
    }
  }

  /** The grant is the capped remainder exactly when the product does not wrap, or wraps to a
      value that still reaches the cap. */
  lemma GrantIsCappedRemainder(limit: uint64, consumed: nat)
    requires consumed <= limit
    ensures var exact := (limit - consumed) * GAS_MULTIPLIER;
            GasForContract(limit, consumed) == (if exact > MAX_GAS then MAX_GAS else exact)
            <==> exact < TWO_64 || exact % TWO_64 >= MAX_GAS
  {
    WrapShrinks((limit - consumed) * GAS_MULTIPLIER);
  }

  /** With a very large gas limit the product wraps: a transaction with more than 10^17 gas left
      grants its contract 84 wasm gas. */
  lemma HugeLimitUnderGrants()
    ensures GasForContract(184_467_440_737_095_517, 0) == 84
  {
  }

  /** Storage accesses made during a run are charged to the same meter. Every use within the
      grant can still be paid afterwards exactly when the grant's worth fits beside the storage
      gas; without a wrap, exactly when no storage gas was taken or the capped grant still fits. */
  lemma WasmChargeFits(limit: uint64, consumed: nat, storage: nat)
    requires consumed <= limit
    ensures var fits := forall used: nat :: used <= GasForContract(limit, consumed)
                                            ==> consumed + storage + ChargeFor(used) <= limit;
            && (fits <==> consumed + storage + ChargeFor(GasForContract(limit, consumed)) <= limit)
            && ((limit - consumed) * GAS_MULTIPLIER < TWO_64 ==>
                  (fits <==> storage == 0 || consumed + storage + MAX_GAS / GAS_MULTIPLIER <= limit))
  {
    var grant := GasForContract(limit, consumed);
    WrapShrinks((limit - consumed) * GAS_MULTIPLIER);
    forall used: nat | used <= grant ensures ChargeFor(used) <= ChargeFor(grant) {
    }
    var fits := forall used: nat :: used <= grant ==> consumed + storage + ChargeFor(used) <= limit;
    assert fits ==> consumed + storage + ChargeFor(grant) <= limit;
    if (limit - consumed) * GAS_MULTIPLIER < TWO_64 {
      if limit - consumed >= MAX_GAS / GAS_MULTIPLIER {
        assert ChargeFor(grant) == MAX_GAS / GAS_MULTIPLIER;
      } else {
        assert ChargeFor(grant) == limit - consumed;
      }
    }
  }

  /** In numbers: a hundred units for each one left, in 64 bits, and at most 900 million; back, one
      for each full hundred. */
  lemma Conversions(limit: uint64, consumed: nat, used: nat)
    ensures var product := (limit - consumed) * 100 % 0x1_0000_0000_0000_0000;
            GasForContract(limit, consumed) == if product <= 900_000_000 then product else 900_000_000
    ensures ChargeFor(used) == used / 100 && 100 * ChargeFor(used) <= used < 100 * ChargeFor(used) + 100
  {
  }
}
