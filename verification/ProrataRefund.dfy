/** The pro-rata refund gate, over exact prices. */
module ProrataRefund {
  import opened Sums
  import opened CreditLots
  import opened LedgerModel

  function UnitPrice(unitAmountCents: int, granted: int): real
    requires granted > 0
  {
    unitAmountCents as real / granted as real
  }

  /** How far the refund is from the price of n credits. */
  function Gap(unitAmountCents: int, granted: int, n: int, refunded: int): real
    requires granted > 0
  {
    refunded as real - n as real * UnitPrice(unitAmountCents, granted)
  }

  lemma QuotientBound(a: real, p: real, q: real)
    requires p > 0.0
    ensures a / p >= q <==> a >= q * p
  {
    var x := a / p;
    assert a == x * p;
    if x >= q {
      assert (x - q) * p >= 0.0;
    } else {
      assert (q - x) * p > 0.0;
    }
  }

  lemma RoundsTo(x: real, n: int)
    ensures Round(x) == n <==> n as real - 0.5 <= x < n as real + 0.5
  {
  }

  /**
   * The gate passes exactly when the refund is within one cent of the price of all n credits, and strictly
   * nearer to it, from above, than half a credit.
   */
  lemma GateIffNearPrice(unitAmountCents: int, granted: int, n: int, refunded: int)
    requires unitAmountCents > 0 && granted > 0 && n > 0
    ensures MatchesUnconsumedProrata(Some(unitAmountCents), granted, n, refunded) <==>
            && -1.0 <= Gap(unitAmountCents, granted, n, refunded) <= 1.0
            && -UnitPrice(unitAmountCents, granted) / 2.0 <= Gap(unitAmountCents, granted, n, refunded)
            && Gap(unitAmountCents, granted, n, refunded) < UnitPrice(unitAmountCents, granted) / 2.0
  {
    var p, a := UnitPrice(unitAmountCents, granted), refunded as real;
    RoundsTo(a / p, n);
    QuotientBound(a, p, n as real - 0.5);
    QuotientBound(a, p, n as real + 0.5);
    assert (n as real - 0.5) * p == n as real * p - p / 2.0;
    assert (n as real + 0.5) * p == n as real * p + p / 2.0;
  }

  /** A refund is the pro-rata price of at most one number of credits. */
  lemma OneCountPerRefund(unitAmountCents: int, granted: int, n: int, m: int, refunded: int)
    requires MatchesUnconsumedProrata(Some(unitAmountCents), granted, n, refunded)
    requires MatchesUnconsumedProrata(Some(unitAmountCents), granted, m, refunded)
    ensures n == m
  {
    RoundsTo(refunded as real / UnitPrice(unitAmountCents, granted), n);
  }

  function RoundedDown(unitAmountCents: int, granted: int, n: int): int
    requires granted > 0
  {
    (n as real * UnitPrice(unitAmountCents, granted)).Floor
  }

  function RoundedUp(unitAmountCents: int, granted: int, n: int): int
    requires granted > 0
  {
    -(-(n as real * UnitPrice(unitAmountCents, granted))).Floor
  }

  /** The cent amounts below and above the exact price pass exactly when they miss it by less than half a credit. */
  lemma RoundedAmountsPass(unitAmountCents: int, granted: int, n: int)
    requires unitAmountCents > 0 && granted > 0 && n > 0
    ensures var p := UnitPrice(unitAmountCents, granted);
            var down, up := RoundedDown(unitAmountCents, granted, n), RoundedUp(unitAmountCents, granted, n);
            && (MatchesUnconsumedProrata(Some(unitAmountCents), granted, n, down) <==>
                  n as real * p - down as real <= p / 2.0)
            && (MatchesUnconsumedProrata(Some(unitAmountCents), granted, n, up) <==>
                  up as real - n as real * p < p / 2.0)
    ensures unitAmountCents >= 2 * granted ==>
              && MatchesUnconsumedProrata(Some(unitAmountCents), granted, n, RoundedDown(unitAmountCents, granted, n))
              && MatchesUnconsumedProrata(Some(unitAmountCents), granted, n, RoundedUp(unitAmountCents, granted, n))
  {
    var p := UnitPrice(unitAmountCents, granted);
    var down, up := RoundedDown(unitAmountCents, granted, n), RoundedUp(unitAmountCents, granted, n);
    GateIffNearPrice(unitAmountCents, granted, n, down);
    GateIffNearPrice(unitAmountCents, granted, n, up);
    QuotientBound(unitAmountCents as real, granted as real, 2.0);
  }

  /**
   * Below two cents a credit an honestly rounded refund can be refused: nine credits at 1.1 cents rounded down, or two
   * credits at 0.3 cents rounded to the nearest cent.
   */
  lemma CheapCreditsCanBeRefused()
    ensures RoundedDown(11, 10, 9) == 9
    ensures !MatchesUnconsumedProrata(Some(11), 10, 9, 9)
    ensures Round(2 as real * UnitPrice(3, 10)) == 1
    ensures !MatchesUnconsumedProrata(Some(3), 10, 2, 1)
  {
    assert UnitPrice(11, 10) == 1.1;
    GateIffNearPrice(11, 10, 9, 9);
    assert UnitPrice(3, 10) == 0.3;
    GateIffNearPrice(3, 10, 2, 1);
  }

  /** An applied partial refund revokes every available credit, and they were worth the refund to within a cent. */
  lemma PartialRefundIsPriced(db: Db, r: nat, refunded: int, charged: int)
    requires Keyed(db) && r < |db.lots| && refunded < charged
    requires RefundTx(db, r, refunded, charged).out.value.Applied?
    ensures var row := db.lots[r];
            var n := RefundTx(db, r, refunded, charged).out.value.credits;
            && n == AvailableInLot(row.lot) && n > 0
            && row.unitAmountCents.Some? && row.lot.granted > 0
            && -1.0 <= Gap(row.unitAmountCents.value, row.lot.granted, n, refunded) <= 1.0
            && forall m :: MatchesUnconsumedProrata(row.unitAmountCents, row.lot.granted, m, refunded) ==> m == n
  {
    hide Keyed, CloseLot;
    var row := db.lots[r];
    var n := AvailableInLot(row.lot);
    assert MatchesUnconsumedProrata(row.unitAmountCents, row.lot.granted, n, refunded);
    forall m | MatchesUnconsumedProrata(row.unitAmountCents, row.lot.granted, m, refunded) ensures m == n {
      OneCountPerRefund(row.unitAmountCents.value, row.lot.granted, n, m, refunded);
    }
  }
}
