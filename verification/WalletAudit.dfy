/** reconcileWallet, and how the stored balance relates to what a reservation can actually find. */
module WalletAudit {
  import opened Sums
  import opened CreditLots
  import opened LedgerModel
  import opened LedgerInvariant
  import opened LedgerRuns

  datatype Reconciliation = Reconciliation(
    consistent: bool, expectedAvailable: int, expectedReserved: int, actualAvailable: int, actualReserved: int)

  /** Snapshots of every lot of the organization, whatever its status. */
  function OrgLots(lots: seq<LotRow>, o: OrgId): seq<Lot> {
    if lots == [] then []
    else
      var n := |lots| - 1;
      OrgLots(lots[..n], o) + (if lots[n].org == o then [lots[n].lot] else [])
  }

  /** Recomputes the wallet from the lots and from the ledger, and compares both with the stored counters. */
  function Reconcile(db: Db, o: OrgId, now: int): Attempt<Reconciliation> {
    if o !in db.wallets then Thrown(MissingCreditWallet)
    else
      var totals := ComputeWalletTotals(OrgLots(db.lots, o), now);
      var w := db.wallets[o];
      Returned(Reconciliation(
        totals.available == w.available && totals.reserved == w.reserved && Sum(db.log, DeltaOf(o)) == w.available,
        totals.available, totals.reserved, w.available, w.reserved))
  }

  ghost function ForOrg(o: OrgId, f: Lot -> int): LotRow -> int {
    (row: LotRow) => if row.org == o then f(row.lot) else 0
  }

  /** Credits of active lots that are past their expiry but not yet swept. */
  ghost function DueCredits(o: OrgId, now: int): LotRow -> int {
    (row: LotRow) => if DueLot(row, o, now) then AvailableInLot(row.lot) else 0
  }

  lemma {:induction false} OrgSum(lots: seq<LotRow>, o: OrgId, f: Lot -> int)
    ensures Sum(OrgLots(lots, o), f) == Sum(lots, ForOrg(o, f))
  {
    if lots != [] {
      var n := |lots| - 1;
      OrgSum(lots[..n], o, f);
      assert lots == lots[..n] + [lots[n]];
      SumAppend(lots[..n], lots[n], ForOrg(o, f));
      if lots[n].org == o {
        SumAppend(OrgLots(lots[..n], o), lots[n].lot, f);
      } else {
        assert OrgLots(lots, o) == OrgLots(lots[..n], o);
      }
    }
  }

  lemma {:induction false} SpendableSplits(lots: seq<LotRow>, n: nat, o: OrgId, now: int)
    requires n <= |lots|
    ensures SumTo(lots, n, Spendable(o)) == SumTo(lots, n, ForOrg(o, ClockActiveCredits(now))) + SumTo(lots, n, DueCredits(o, now))
  {
    if n > 0 {
      SpendableSplits(lots, n - 1, o, now);
    }
  }

  ghost predicate NothingDue(db: Db, o: OrgId, now: int) {
    forall r | 0 <= r < |db.lots| && DueLot(db.lots[r], o, now) :: AvailableInLot(db.lots[r].lot) == 0
  }

  /** The unswept drift is zero exactly when no due lot has credits left. */
  lemma DriftIsDueCredits(db: Db, o: OrgId, now: int)
    requires LotsOk(db)
    ensures Sum(db.lots, DueCredits(o, now)) == 0 <==> NothingDue(db, o, now)
  {
    hide TallyOk, EntriesOk, PaidOk;
    forall r | 0 <= r < |db.lots| ensures DueCredits(o, now)(db.lots[r]) >= 0 {
      assert CountsOk(db.lots[r].lot);
    }
    SumBounds(db.lots, DueCredits(o, now));
    if NothingDue(db, o, now) {
      SumZero(db.lots, DueCredits(o, now));
    } else {
      var r :| 0 <= r < |db.lots| && DueLot(db.lots[r], o, now) && AvailableInLot(db.lots[r].lot) != 0;
      assert DueCredits(o, now)(db.lots[r]) > 0;
    }
  }

  /** The audit is exact: it passes if and only if every due lot that is still active is empty. */
  lemma AuditIsExact(db: Db, o: OrgId, now: int)
    requires Inv(db) && o in db.wallets
    ensures Reconcile(db, o, now).value.consistent <==> NothingDue(db, o, now)
    ensures Reconcile(db, o, now).value.expectedReserved == db.wallets[o].reserved
    ensures Reconcile(db, o, now).value.expectedAvailable <= db.wallets[o].available
  {
    assert WalletOk(db, o);
    assert LotsOk(db);
    hide Keyed, LogKeyed, LotsOk, SessionsOk, WalletsOk;
    OrgSum(db.lots, o, ClockActiveCredits(now));
    OrgSum(db.lots, o, ReservedCredits());
    SumPointwise(db.lots, db.lots, ForOrg(o, ReservedCredits()), ReservedIn(o));
    SpendableSplits(db.lots, |db.lots|, o, now);
    DriftIsDueCredits(db, o, now);
    DueIsNonnegative(db, o, now);
  }

  ghost function SpendableAt(o: OrgId, now: int): LotRow -> int {
    (row: LotRow) =>
      if row.org == o && row.lot.status == Active && now < row.lot.expiresAt
      then row.lot.granted - row.lot.consumed - row.lot.reserved else 0
  }

  /** On any tables whatever, balanced or not, the audit passes exactly if both counters agree with lots and ledger alike. */
  lemma AuditDetectsDrift(db: Db, o: OrgId, now: int)
    requires o in db.wallets
    ensures var r := Reconcile(db, o, now);
            && r.Returned?
            && r.value.expectedAvailable == Sum(db.lots, SpendableAt(o, now))
            && r.value.expectedReserved == Sum(db.lots, ReservedIn(o))
            && r.value.actualAvailable == db.wallets[o].available && r.value.actualReserved == db.wallets[o].reserved
            && (r.value.consistent <==>
                  && db.wallets[o].available == Sum(db.lots, SpendableAt(o, now))
                  && db.wallets[o].reserved == Sum(db.lots, ReservedIn(o))
                  && db.wallets[o].available == Sum(db.log, DeltaOf(o)))
  {
    OrgSum(db.lots, o, ClockActiveCredits(now));
    OrgSum(db.lots, o, ReservedCredits());
    SumPointwise(db.lots, db.lots, ForOrg(o, ReservedCredits()), ReservedIn(o));
    SumPointwise(db.lots, db.lots, ForOrg(o, ClockActiveCredits(now)), SpendableAt(o, now));
  }

  lemma DueIsNonnegative(db: Db, o: OrgId, now: int)
    requires LotsOk(db)
    ensures Sum(db.lots, DueCredits(o, now)) >= 0
  {
    hide TallyOk, EntriesOk, PaidOk;
    forall r | 0 <= r < |db.lots| ensures DueCredits(o, now)(db.lots[r]) >= 0 {
      assert CountsOk(db.lots[r].lot);
    }
    SumBounds(db.lots, DueCredits(o, now));
  }

  /** After the expiry sweep no active lot of the organization is past its expiry. */
  lemma SweepLeavesNothingDue(db: Db, o: OrgId, now: int)
    requires Keyed(db)
    ensures forall r | 0 <= r < |db.lots| :: !DueLot(ExpirySweep(db, o, now).lots[r], o, now)
  {
    hide Keyed;
    var due := DueLots(db.lots, o, now);
    ExpiriesCloseLots(db, due, |due|);
    var after := ExpirySweep(db, o, now).lots;
    hide ExpireFirst;
    forall r: nat | r < |db.lots| ensures !DueLot(after[r], o, now) {
      if DueLot(db.lots[r], o, now) {
        assert r in due;
        assert Listed(due, |due|, r);
      }
    }
  }

  lemma PlaceLeavesNothingDue(db: Db, o: OrgId, s: SessionId, slot: Option<nat>, now: int)
    requires Keyed(db) && o in db.wallets && slot == FindHold(db.holds, s)
    ensures var end := FreshHold(db, o, s, slot, now).db;
            forall r | 0 <= r < |end.lots| :: !DueLot(end.lots[r], o, now)
  {
    hide Keyed, SelectRow, FindHold, ExpirySweep, TtlSweep;
    SlotStaysFree(db, o, s, now);
    SweepLeavesNothingDue(TtlSweep(db, o, now), o, now);
  }

  ghost predicate AuditPasses(db: Db, o: OrgId, now: int) {
    o in db.wallets && Reconcile(db, o, now).value.consistent
  }

  /** Every operation that ends with a sweep at a clock leaves a wallet whose audit passes at that clock. */
  lemma AuditPassesAfterSweeps(db: Db, o: OrgId, s: SessionId, now: int)
    requires Inv(db) && o in db.wallets
    ensures AuditPasses(ExpireDueTx(db, o, now).db, o, now)
    ensures AuditPasses(ReleaseExpiredTx(db, o, now).db, o, now)
    ensures ReleaseTx(db, o, s, now).out == Returned(ReleaseDone) ==> AuditPasses(ReleaseTx(db, o, s, now).db, o, now)
  {
    hide Inv, Keyed, AuditPasses, ExpirySweep, ReleaseHold, TtlSweep;
    InvKeyed(db);
    AuditAfter(db, o, now);
    TtlSweepKeepsInv(db, o, now);
    AuditAfter(TtlSweep(db, o, now), o, now);
    var slot := FindHold(db.holds, s);
    if slot.Some? && db.holds[slot.value].org == o && db.holds[slot.value].status == Held {
      ReleaseKeepsInv(db, slot.value, now);
      AuditAfter(ReleaseHold(db, slot.value, now), o, now);
    }
  }

  /** So does an admission that takes, or is refused, a fresh hold. */
  lemma AuditPassesAfterFreshHold(db: Db, o: OrgId, s: SessionId, now: int)
    requires Inv(db) && o in db.wallets
    requires FindHold(db.holds, s).None? ||
             (db.holds[FindHold(db.holds, s).value].org == o && db.holds[FindHold(db.holds, s).value].status == Released)
    ensures Keyed(db) && AuditPasses(ReserveTx(db, o, s, now).db, o, now)
  {
    hide Inv, Keyed, Reconcile, FreshHold;
    InvKeyed(db);
    var slot := FindHold(db.holds, s);
    FreshHoldKeepsInv(db, o, s, slot, now);
    PlaceLeavesNothingDue(db, o, s, slot, now);
    FreshHoldKeepsWallet(db, o, s, slot, now);
    AuditIsExact(FreshHold(db, o, s, slot, now).db, o, now);
  }

  lemma FreshHoldKeepsWallet(db: Db, o: OrgId, s: SessionId, slot: Option<nat>, now: int)
    requires Keyed(db) && o in db.wallets && slot == FindHold(db.holds, s)
    ensures o in FreshHold(db, o, s, slot, now).db.wallets
  {
    hide Keyed, Swept, SelectRow, FindHold;
    SlotStaysFree(db, o, s, now);
  }

  lemma AuditAfter(db: Db, o: OrgId, now: int)
    requires Inv(db) && o in db.wallets
    ensures Keyed(db) && AuditPasses(ExpirySweep(db, o, now), o, now)
  {
    hide Inv, Keyed, Reconcile, ExpireFirst;
    InvKeyed(db);
    ExpirySweepKeepsInv(db, o, now);
    SweepLeavesNothingDue(db, o, now);
    AuditIsExact(ExpirySweep(db, o, now), o, now);
  }

  /** And so does a won dispute, whose lot may have lapsed while it was frozen. */
  lemma AuditPassesAfterWon(db: Db, r: nat, now: int)
    requires Inv(db) && r < |db.lots| && db.lots[r].lot.status == Frozen
    ensures Keyed(db) && AuditPasses(ResolveTx(db, r, true, now).db, db.lots[r].org, now)
  {
    hide Inv, Keyed, AuditPasses, ExpirySweep, ReopenLot;
    InvKeyed(db);
    LotKeys(db, r);
    ReopenKeepsInv(db, r);
    AuditAfter(ReopenLot(db, r), db.lots[r].org, now);
  }

  // ---- the counter agrees with the search ----

  /** A fresh hold is found exactly when the swept wallet has a credit, and it is taken on the best row. */
  lemma FreshHoldIffBalance(db: Db, o: OrgId, s: SessionId, now: int)
    requires Inv(db) && o in db.wallets
    requires FindHold(db.holds, s).None? ||
             (db.holds[FindHold(db.holds, s).value].org == o && db.holds[FindHold(db.holds, s).value].status == Released)
    ensures Keyed(db) && Inv(Swept(db, o, now)) && o in Swept(db, o, now).wallets
    ensures var r := ReserveTx(db, o, s, now);
            && r.out.Returned?
            && (r.out.value.ReserveOk? <==> Swept(db, o, now).wallets[o].available > 0)
            && (r.out.value.ReserveOk? ==>
                  r.out.value.hold < |r.db.holds| && BestRow(Swept(db, o, now), o, now, r.db.holds[r.out.value.hold].lot))
  {
    hide Inv, Keyed, Swept, SelectRow, BestRow;
    InvKeyed(db);
    SweptKeepsInv(db, o, now);
    var swept := Swept(db, o, now);
    NothingDueAfterSwept(db, o, now);
    SelectRowIsBest(swept, o, now);
    BalanceIffServable(swept, o, now);
    SlotStaysFree(db, o, s, now);
  }

  /** The row serves before the other: free before bought, then the sooner expiry, the older grant, the smaller id. */
  predicate ServesFirst(l: Lot, m: Lot) {
    && (m.kind == Free ==> l.kind == Free)
    && (m.kind == l.kind ==> l.expiresAt <= m.expiresAt)
    && (m.kind == l.kind && m.expiresAt == l.expiresAt ==> l.grantedAt <= m.grantedAt)
    && (m.kind == l.kind && m.expiresAt == l.expiresAt && m.grantedAt == l.grantedAt ==> l.id <= m.id)
  }

  /** A fresh hold never spends a bought credit while a free one can serve, nor a later credit while a sooner one can. */
  lemma FreshHoldSpendsInOrder(db: Db, o: OrgId, s: SessionId, now: int, q: nat)
    requires Inv(db) && o in db.wallets && NeedsFreshHold(db, o, s)
    requires Keyed(db) && q < |Swept(db, o, now).lots|
    requires var row := Swept(db, o, now).lots[q];
             && row.org == o && row.lot.status == Active && now < row.lot.expiresAt
             && row.lot.consumed + row.lot.reserved < row.lot.granted
    ensures var r := ReserveTx(db, o, s, now);
            && r.out.Returned? && r.out.value.ReserveOk? && r.out.value.hold < |r.db.holds|
            && var p := r.db.holds[r.out.value.hold].lot;
               && p < |Swept(db, o, now).lots| && Swept(db, o, now).lots[p].org == o
               && ServesFirst(Swept(db, o, now).lots[p].lot, Swept(db, o, now).lots[q].lot)
  {
    hide Inv, Swept, SelectRow, FindHold;
    var swept := Swept(db, o, now);
    SelectRowIsBest(swept, o, now);
    SlotStaysFree(db, o, s, now);
    hide Keyed;
    assert CanServe(swept.lots[q], o, now);
    var p := SelectRow(swept, o, now).value;
    assert Compare(swept.lots[p].lot, swept.lots[q].lot) <= 0;
  }

  lemma NothingDueAfterSwept(db: Db, o: OrgId, now: int)
    requires Keyed(db)
    ensures forall r | 0 <= r < |Swept(db, o, now).lots| :: !DueLot(Swept(db, o, now).lots[r], o, now)
  {
    hide Keyed, ExpirySweep, TtlSweep;
    SweepLeavesNothingDue(TtlSweep(db, o, now), o, now);
  }

  lemma BalanceIffServable(db: Db, o: OrgId, now: int)
    requires Inv(db) && o in db.wallets
    requires forall r | 0 <= r < |db.lots| :: !DueLot(db.lots[r], o, now)
    ensures db.wallets[o].available > 0 <==> exists r :: 0 <= r < |db.lots| && CanServe(db.lots[r], o, now)
  {
    assert WalletOk(db, o);
    hide Keyed, LogKeyed, WalletsOk, SessionsOk, TallyOk, EntriesOk, PaidOk;
    forall r | 0 <= r < |db.lots| ensures Spendable(o)(db.lots[r]) >= 0
                                  ensures Spendable(o)(db.lots[r]) > 0 <==> CanServe(db.lots[r], o, now) {
      assert CountsOk(db.lots[r].lot) && !DueLot(db.lots[r], o, now);
    }
    SumBounds(db.lots, Spendable(o));
    if forall r | 0 <= r < |db.lots| :: !CanServe(db.lots[r], o, now) {
      SumZero(db.lots, Spendable(o));
    }
  }
}
