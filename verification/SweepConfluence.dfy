/** The two sweeps commute: releasing stale holds before or after expiring due lots ends in the same books. */
module SweepConfluence {
  import opened Sums
  import opened CreditLots
  import opened LedgerModel
  import opened LedgerInvariant
  import opened LedgerRuns

  lemma {:induction false} SameDueLots(a: seq<LotRow>, b: seq<LotRow>, o: OrgId, now: int)
    requires |a| == |b|
    requires forall r | 0 <= r < |a| :: DueLot(a[r], o, now) <==> DueLot(b[r], o, now)
    ensures DueLots(a, o, now) == DueLots(b, o, now)
  {
    if a != [] {
      var n := |a| - 1;
      SameDueLots(a[..n], b[..n], o, now);
    }
  }

  function Lapsed(row: LotRow): LotRow {
    row.(lot := row.lot.(status := Expired))
  }

  /** The expiry sweep, row by row. */
  lemma ExpirySweepRows(db: Db, o: OrgId, now: int)
    requires Keyed(db)
    ensures ExpirySweep(db, o, now).holds == db.holds
    ensures |ExpirySweep(db, o, now).lots| == |db.lots|
    ensures forall r: nat | r < |db.lots| ::
              ExpirySweep(db, o, now).lots[r] == if DueLot(db.lots[r], o, now) then Lapsed(db.lots[r]) else db.lots[r]
  {
    hide Keyed;
    var due := DueLots(db.lots, o, now);
    ExpiriesCloseLots(db, due, |due|);
    ExpiriesKeepHolds(db, due, |due|);
    var after := ExpirySweep(db, o, now).lots;
    hide ExpireFirst;
    forall r: nat | r < |db.lots| ensures after[r] == if DueLot(db.lots[r], o, now) then Lapsed(db.lots[r]) else db.lots[r] {
      assert DueLot(db.lots[r], o, now) <==> Listed(due, |due|, r) by {
        assert DueLot(db.lots[r], o, now) ==> r in due;
      }
    }
  }

  /** How many of the organization's stale holds sit on lot q. */
  ghost function StaleOn(holds: seq<Hold>, o: OrgId, now: int, q: nat): int {
    Sum(DueHolds(holds, o, now), OnLot(holds, q))
  }

  /** The TTL sweep, row by row. */
  lemma TtlSweepRows(db: Db, o: OrgId, now: int)
    requires Keyed(db)
    ensures |TtlSweep(db, o, now).holds| == |db.holds| && |TtlSweep(db, o, now).lots| == |db.lots|
    ensures forall i: nat | i < |db.holds| ::
              TtlSweep(db, o, now).holds[i] ==
              if DueHold(db.holds[i], o, now) then ReleasedHold(db.holds[i], now) else db.holds[i]
    ensures forall q: nat | q < |db.lots| ::
              TtlSweep(db, o, now).lots[q] == Returning(db.lots[q], StaleOn(db.holds, o, now, q))
  {
    hide Keyed;
    var due := DueHolds(db.holds, o, now);
    ReleasesFreeHolds(db, due, |due|, now);
    ReleasesFreeLots(db, due, |due|, now);
    var after := TtlSweep(db, o, now).holds;
    hide ReleaseFirst, FreedLots;
    forall i: nat | i < |db.holds|
      ensures after[i] == if DueHold(db.holds[i], o, now) then ReleasedHold(db.holds[i], now) else db.holds[i]
    {
      assert DueHold(db.holds[i], o, now) <==> Listed(due, |due|, i) by {
        assert DueHold(db.holds[i], o, now) ==> i in due;
      }
    }
    assert TtlSweep(db, o, now).lots == ReleaseFirst(db, due, |due|, now).lots;
    forall q: nat | q < |db.lots|
      ensures TtlSweep(db, o, now).lots[q] == Returning(db.lots[q], StaleOn(db.holds, o, now, q))
    {
      FreedRow(db.lots, db.holds, TtlSweep(db, o, now).lots, due, q);
    }
  }

  lemma FreedRow(lots: seq<LotRow>, holds: seq<Hold>, after: seq<LotRow>, due: seq<nat>, q: nat)
    requires FreedLots(lots, holds, after, due, |due|) && q < |lots|
    ensures |after| == |lots| && after[q] == Returning(lots[q], Sum(due, OnLot(holds, q)))
  {
  }

  predicate SameCurrencies(a: Db, b: Db) {
    a.wallets.Keys == b.wallets.Keys && forall o | o in a.wallets :: a.wallets[o].currency == b.wallets[o].currency
  }

  lemma {:induction false} ReleasesKeepCurrencies(db: Db, due: seq<nat>, n: nat, now: int)
    requires Keyed(db) && n <= |due|
    requires forall k | 0 <= k < n :: due[k] < |db.holds|
    ensures SameCurrencies(db, ReleaseFirst(db, due, n, now))
  {
    hide Keyed;
    if n > 0 {
      ReleasesKeepCurrencies(db, due, n - 1, now);
      HoldKeys(ReleaseFirst(db, due, n - 1, now), due[n - 1]);
    }
  }

  lemma {:induction false} ExpiriesKeepCurrencies(db: Db, due: seq<nat>, n: nat)
    requires Keyed(db) && n <= |due|
    requires forall k | 0 <= k < n :: due[k] < |db.lots|
    ensures SameCurrencies(db, ExpireFirst(db, due, n))
  {
    hide Keyed;
    if n > 0 {
      ExpiriesKeepCurrencies(db, due, n - 1);
      LotKeys(ExpireFirst(db, due, n - 1), due[n - 1]);
    }
  }

  lemma SweepsKeepCurrencies(db: Db, o: OrgId, now: int)
    requires Keyed(db)
    ensures SameCurrencies(db, TtlSweep(db, o, now)) && SameCurrencies(db, ExpirySweep(db, o, now))
  {
    hide Keyed, SameCurrencies;
    var due, dueLots := DueHolds(db.holds, o, now), DueLots(db.lots, o, now);
    ReleasesKeepCurrencies(db, due, |due|, now);
    ExpiriesKeepCurrencies(db, dueLots, |dueLots|);
  }

  /** Balanced books with the same lots and holds have the same counters and the same ledger totals. */
  lemma SameRowsSameBalances(a: Db, b: Db)
    requires Inv(a) && Inv(b) && a.lots == b.lots && a.holds == b.holds && SameCurrencies(a, b)
    ensures a.wallets == b.wallets
    ensures forall o | o in a.wallets :: Sum(a.log, DeltaOf(o)) == Sum(b.log, DeltaOf(o))
    ensures forall r: nat | r < |a.lots| :: Sum(a.log, DeltaOn(r)) == Sum(b.log, DeltaOn(r))
  {
    hide Keyed, LogKeyed, SessionsOk, TallyOk, PaidOk, ExitsOk;
    forall o | o in a.wallets ensures o in b.wallets && a.wallets[o] == b.wallets[o] {
      assert o in b.wallets.Keys;
      assert WalletOk(a, o) && WalletOk(b, o);
    }
    forall o | o in b.wallets ensures o in a.wallets {
      assert o in a.wallets.Keys;
    }
    assert a.wallets == b.wallets;
    forall o | o in a.wallets ensures Sum(a.log, DeltaOf(o)) == Sum(b.log, DeltaOf(o)) {
      assert WalletOk(a, o) && WalletOk(b, o);
    }
    forall r: nat | r < |a.lots| ensures Sum(a.log, DeltaOn(r)) == Sum(b.log, DeltaOn(r)) {
      assert EntriesOk(a.log, r, a.lots[r].lot) && EntriesOk(b.log, r, b.lots[r].lot);
    }
  }

  lemma SweptRowsCommute(db: Db, o: OrgId, now: int)
    requires Keyed(db)
    ensures Swept(db, o, now).lots == TtlSweep(ExpirySweep(db, o, now), o, now).lots
    ensures Swept(db, o, now).holds == TtlSweep(ExpirySweep(db, o, now), o, now).holds
  {
    hide Keyed, StaleOn;
    var freed, expired := TtlSweep(db, o, now), ExpirySweep(db, o, now);
    TtlSweepRows(db, o, now);
    ExpirySweepRows(db, o, now);
    ExpirySweepRows(freed, o, now);
    TtlSweepRows(expired, o, now);
    hide TtlSweep, ExpirySweep;
    var a, b := Swept(db, o, now).lots, TtlSweep(expired, o, now).lots;
    forall q: nat | q < |db.lots| ensures a[q] == b[q] {
      assert DueLot(freed.lots[q], o, now) <==> DueLot(db.lots[q], o, now);
    }
  }

  /**
   * Both orders end with the same wallets, lots, reservations and ledger totals, although a hold on a due lot
   * is paid back by one order and compensated by the other.
   */
  lemma SweepsCommute(db: Db, o: OrgId, now: int)
    requires Inv(db)
    ensures Keyed(db)
    ensures var a, b := Swept(db, o, now), TtlSweep(ExpirySweep(db, o, now), o, now);
            && a.wallets == b.wallets && a.lots == b.lots && a.holds == b.holds
            && (forall p | p in a.wallets :: Sum(a.log, DeltaOf(p)) == Sum(b.log, DeltaOf(p)))
            && (forall r: nat | r < |a.lots| :: Sum(a.log, DeltaOn(r)) == Sum(b.log, DeltaOn(r)))
  {
    hide Inv, Keyed, TtlSweep, ExpirySweep;
    InvKeyed(db);
    var freed, expired := TtlSweep(db, o, now), ExpirySweep(db, o, now);
    TtlSweepKeepsInv(db, o, now);
    ExpirySweepKeepsInv(db, o, now);
    ExpirySweepKeepsInv(freed, o, now);
    TtlSweepKeepsInv(expired, o, now);
    SweepsKeepCurrencies(db, o, now);
    SweepsKeepCurrencies(freed, o, now);
    SweepsKeepCurrencies(expired, o, now);
    SweptRowsCommute(db, o, now);
    SameRowsSameBalances(Swept(db, o, now), TtlSweep(expired, o, now));
  }
}
