/**
 * Exhausted does not mean fully consumed. Exactly when a lot becomes exhausted, what a spent lot that missed it looks
 * like for the rest of its life, and runs from the empty database that produce one.
 */
module LotExhaustion {
  import opened Sums
  import opened CreditLots
  import opened LedgerModel
  import opened LedgerInvariant
  import opened LedgerRuns
  import opened LedgerHistory
  import opened LedgerGuarantees
  import opened SweepConfluence

  /** A capture exhausts its lot exactly when it takes the last credit of a lot that is still active. */
  lemma CaptureExhaustsIff(db: Db, i: nat, now: int)
    requires Inv(db) && i < |db.holds| && db.holds[i].status == Held
    ensures Keyed(db)
    ensures var r := db.holds[i].lot;
            && r < |db.lots| && r < |CaptureHold(db, i, now).lots|
            && (CaptureHold(db, i, now).lots[r].lot.status == Exhausted <==>
                db.lots[r].lot.status == Active && db.lots[r].lot.consumed + 1 == db.lots[r].lot.granted)
  {
    hide Inv, Keyed, EntriesOk;
    InvKeyed(db);
    HeldIsReserved(db, i);
    HoldKeys(db, i);
  }

  /** The step captures the last credit of row r while the row is active. */
  predicate Spends(db: Db, step: Step, r: nat)
    requires r < |db.lots|
  {
    && step.CaptureFor? && step.org in db.wallets
    && var slot := FindHold(db.holds, step.session);
       && slot.Some? && db.holds[slot.value].org == step.org
       && db.holds[slot.value].status == Held && db.holds[slot.value].lot == r
       && db.lots[r].lot.status == Active && db.lots[r].lot.consumed + 1 == db.lots[r].lot.granted
  }

  lemma CaptureStepExhaustsIff(db: Db, o: OrgId, s: SessionId, now: int, r: nat)
    requires Inv(db) && r < |db.lots|
    ensures Keyed(db)
    ensures var end := CaptureTx(db, o, s, now).db;
            && r < |end.lots|
            && (end.lots[r].lot.status == Exhausted <==>
                db.lots[r].lot.status == Exhausted || Spends(db, CaptureFor(o, s, now), r))
  {
    hide Inv, Keyed, FindHold, EntriesOk;
    InvKeyed(db);
    var slot := FindHold(db.holds, s);
    if slot.Some? && db.holds[slot.value].status == Held {
      HeldIsReserved(db, slot.value);
      HoldKeys(db, slot.value);
      CaptureExhaustsIff(db, slot.value, now);
    }
  }

  /** Row r is exhausted after as before. */
  predicate SameExhaustion(a: seq<LotRow>, b: seq<LotRow>, r: nat) {
    r < |a| && r < |b| && (a[r].lot.status == Exhausted <==> b[r].lot.status == Exhausted)
  }

  lemma ExpirySweepExhaustsNothing(db: Db, o: OrgId, now: int, r: nat)
    requires Keyed(db) && r < |db.lots|
    ensures SameExhaustion(db.lots, ExpirySweep(db, o, now).lots, r)
  {
    hide Keyed;
    ExpirySweepRows(db, o, now);
    hide ExpirySweep;
  }

  lemma SweptExhaustsNothing(db: Db, o: OrgId, now: int, r: nat)
    requires Keyed(db) && r < |db.lots|
    ensures SameExhaustion(db.lots, Swept(db, o, now).lots, r)
  {
    hide Keyed, ExpirySweep, StaleOn;
    TtlSweepRows(db, o, now);
    ExpirySweepExhaustsNothing(TtlSweep(db, o, now), o, now, r);
    hide TtlSweep;
  }

  lemma ReserveExhaustsNothing(db: Db, o: OrgId, s: SessionId, now: int, r: nat)
    requires Keyed(db) && r < |db.lots|
    ensures SameExhaustion(db.lots, ReserveTx(db, o, s, now).db.lots, r)
  {
    hide Keyed, Swept, SelectRow, FindHold;
    SweptExhaustsNothing(db, o, now, r);
    SlotStaysFree(db, o, s, now);
  }

  lemma ReleaseExhaustsNothing(db: Db, o: OrgId, s: SessionId, now: int, r: nat)
    requires Keyed(db) && r < |db.lots|
    ensures SameExhaustion(db.lots, ReleaseTx(db, o, s, now).db.lots, r)
  {
    hide Keyed, ExpirySweep, FindHold;
    var slot := FindHold(db.holds, s);
    if slot.Some? {
      HoldKeys(db, slot.value);
      ReleaseRows(db, slot.value, now);
      ExpirySweepExhaustsNothing(ReleaseHold(db, slot.value, now), o, now, r);
    }
    hide ReleaseHold;
  }

  lemma ExitsExhaustNothing(db: Db, q: nat, won: bool, refunded: int, charged: int, now: int, r: nat)
    requires Keyed(db) && q < |db.lots| && r < |db.lots|
    ensures SameExhaustion(db.lots, FreezeTx(db, q, now).db.lots, r)
    ensures SameExhaustion(db.lots, ResolveTx(db, q, won, now).db.lots, r)
    ensures SameExhaustion(db.lots, RefundTx(db, q, refunded, charged).db.lots, r)
  {
    hide Keyed, ExpirySweep, MatchesUnconsumedProrata;
    LotKeys(db, q);
    ExpirySweepExhaustsNothing(ReopenLot(db, q), db.lots[q].org, now, r);
  }

  lemma GrantsExhaustNothing(db: Db, o: OrgId, now: int, days: int, lotId: int, g: GrantInput, r: nat)
    requires Keyed(db) && r < |db.lots|
    ensures SameExhaustion(db.lots, EnsureWalletTx(db, o, now, days, lotId).db.lots, r)
    ensures SameExhaustion(db.lots, GrantTx(db, g).db.lots, r)
  {
    hide Keyed, FindId, FindPayment, FirstConflict, Upper;
  }

  /** Of all the operations only that capture exhausts a lot, and none brings it back. */
  lemma StepExhaustsIff(db: Db, step: Step, r: nat)
    requires Inv(db) && r < |db.lots|
    ensures Keyed(db) && r < |Apply(db, step).lots|
    ensures Apply(db, step).lots[r].lot.status == Exhausted <==>
            db.lots[r].lot.status == Exhausted || Spends(db, step, r)
  {
    hide Inv, Keyed, EnsureWalletTx, GrantTx, ReserveTx, CaptureTx, ReleaseTx;
    hide FreezeTx, ResolveTx, RefundTx, ExpirySweep, Swept, FindHold;
    InvKeyed(db);
    var none := GrantInput(0, 0, 0, "", 0, 0, 0);
    match step
    case EnsureWallet(o, now, days, lotId) => GrantsExhaustNothing(db, o, now, days, lotId, none, r);
    case Grant(g) => GrantsExhaustNothing(db, 0, 0, 0, 0, g, r);
    case ReserveFor(o, s, now) => ReserveExhaustsNothing(db, o, s, now, r);
    case CaptureFor(o, s, now) => CaptureStepExhaustsIff(db, o, s, now, r);
    case ReleaseFor(o, s, now) => ReleaseExhaustsNothing(db, o, s, now, r);
    case ReleaseExpired(o, now) => SweptExhaustsNothing(db, o, now, r);
    case ExpireDue(o, now) => ExpirySweepExhaustsNothing(db, o, now, r);
    case FreezeLot(q, now) => if q < |db.lots| { ExitsExhaustNothing(db, q, true, 0, 0, now, r); }
    case ResolveDispute(q, won, now) => if q < |db.lots| { ExitsExhaustNothing(db, q, won, 0, 0, now, r); }
    case RefundLot(q, refunded, charged) =>
      if q < |db.lots| { ExitsExhaustNothing(db, q, true, refunded, charged, 0, r); }
  }

  lemma RowsStay(db: Db, steps: seq<Step>)
    requires Keyed(db)
    ensures |db.lots| <= |Run(db, steps).lots|
  {
    RunEvolves(db, steps);
  }

  /** The k-th step of the run captures the last credit of row r while the row is active. */
  ghost predicate SpendsAt(db: Db, steps: seq<Step>, k: nat, r: nat)
    requires Keyed(db) && r < |db.lots| && k < |steps|
  {
    RowsStay(db, steps[..k]);
    Spends(Run(db, steps[..k]), steps[k], r)
  }

  /**
   * A lot is exhausted after a run exactly when it was before, or some step captured its last credit while it was active.
   */
  lemma {:induction false} RunExhaustsIff(db: Db, steps: seq<Step>, r: nat)
    requires Inv(db) && r < |db.lots|
    ensures Keyed(db) && r < |Run(db, steps).lots|
    ensures Run(db, steps).lots[r].lot.status == Exhausted <==>
            db.lots[r].lot.status == Exhausted || exists k: nat :: k < |steps| && SpendsAt(db, steps, k, r)
  {
    hide Inv, Keyed, Apply, Spends;
    InvKeyed(db);
    RowsStay(db, steps);
    if steps != [] {
      var n := |steps| - 1;
      RunExhaustsIff(db, steps[..n], r);
      RunKeepsInv(db, steps[..n]);
      RowsStay(db, steps[..n]);
      StepExhaustsIff(Run(db, steps[..n]), steps[n], r);
      forall k: nat | k < n ensures SpendsAt(db, steps, k, r) <==> SpendsAt(db, steps[..n], k, r) {
        assert steps[..n][..k] == steps[..k];
      }
      assert SpendsAt(db, steps, n, r) <==> Spends(Run(db, steps[..n]), steps[n], r);
    }
  }

  predicate Spent(lot: Lot) {
    lot.consumed == lot.granted
  }

  /** A spent lot that is not exhausted carries no credit, held or free, and no run ever makes it exhausted. */
  lemma SpentButNotExhaustedForGood(db: Db, steps: seq<Step>, r: nat)
    requires Inv(db) && r < |db.lots| && Spent(db.lots[r].lot) && db.lots[r].lot.status != Exhausted
    ensures db.lots[r].lot.reserved == 0 && AvailableInLot(db.lots[r].lot) == 0
    ensures Keyed(db) && r < |Run(db, steps).lots|
    ensures var end := Run(db, steps).lots[r].lot;
            end.status != Exhausted && Spent(end) && end.reserved == 0 && AvailableInLot(end) == 0
  {
    hide Inv, Keyed, Run, EntriesOk, SpendsAt;
    InvKeyed(db);
    LotFacts(db, r);
    RunEvolves(db, steps);
    RunKeepsInv(db, steps);
    assert RowEvolves(db.lots[r], Run(db, steps).lots[r]);
    LotFacts(Run(db, steps), r);
    RunExhaustsIff(db, steps, r);
    forall k: nat | k < |steps| ensures !SpendsAt(db, steps, k, r) {
      NothingLeftToSpend(db, steps, k, r);
    }
  }

  lemma NothingLeftToSpend(db: Db, steps: seq<Step>, k: nat, r: nat)
    requires Keyed(db) && r < |db.lots| && Spent(db.lots[r].lot) && k < |steps|
    ensures !SpendsAt(db, steps, k, r)
  {
    hide Keyed, Run, FindHold;
    RunEvolves(db, steps[..k]);
    assert RowEvolves(db.lots[r], Run(db, steps[..k]).lots[r]);
  }

  /** Every closed status keeps a spent lot: the capture of its last credit leaves the status as it was. */
  lemma ClosedStatusOutlastsTheLastCredit(db: Db, i: nat, now: int)
    requires Inv(db) && i < |db.holds| && db.holds[i].status == Held
    requires db.lots[db.holds[i].lot].lot.status != Active
    requires db.lots[db.holds[i].lot].lot.consumed + 1 == db.lots[db.holds[i].lot].lot.granted
    ensures Keyed(db)
    ensures var r := db.holds[i].lot;
            var end := CaptureTx(db, db.holds[i].org, db.holds[i].session, now).db;
            && r < |end.lots| && Spent(end.lots[r].lot) && end.lots[r].lot.status == db.lots[r].lot.status
            && end.lots[r].lot.status != Exhausted
  {
    hide Inv, Keyed, FindHold, EntriesOk;
    InvKeyed(db);
    HeldIsReserved(db, i);
    SameSessionSameRow(db, i, db.holds[i].session);
    HoldKeys(db, i);
  }

  /** A won dispute gives such a lot the status of its clock: active, or expired when due, never exhausted. */
  lemma WonLotFollowsTheClock(db: Db, r: nat, now: int)
    requires Keyed(db) && r < |db.lots| && db.lots[r].lot.status == Frozen
    ensures var won := ResolveTx(db, r, true, now).db;
            && r < |won.lots|
            && won.lots[r].lot == db.lots[r].lot.(status := if db.lots[r].lot.expiresAt <= now then Expired else Active)
  {
    hide Keyed;
    LotKeys(db, r);
    ExpirySweepRows(ReopenLot(db, r), db.lots[r].org, now);
    hide ExpirySweep;
  }

  /** Captured to its last credit while frozen, the lot is active again once the dispute is won, or expired when due. */
  lemma SpentWhileFrozenIsNotExhausted(db: Db, i: nat, capturedAt: int, wonAt: int)
    requires Inv(db) && i < |db.holds| && db.holds[i].status == Held
    requires db.lots[db.holds[i].lot].lot.status == Frozen
    requires db.lots[db.holds[i].lot].lot.consumed + 1 == db.lots[db.holds[i].lot].lot.granted
    ensures Keyed(db)
    ensures var r := db.holds[i].lot;
            var spent := CaptureTx(db, db.holds[i].org, db.holds[i].session, capturedAt).db;
            && r < |spent.lots| && spent.lots[r].lot.status == Frozen && AvailableInLot(spent.lots[r].lot) == 0
            && var won := ResolveTx(spent, r, true, wonAt).db;
            && r < |won.lots| && Spent(won.lots[r].lot)
            && won.lots[r].lot.status == (if db.lots[r].lot.expiresAt <= wonAt then Expired else Active)
  {
    hide Inv, Keyed, CaptureTx, ResolveTx, EntriesOk;
    var r, o, s := db.holds[i].lot, db.holds[i].org, db.holds[i].session;
    ClosedStatusOutlastsTheLastCredit(db, i, capturedAt);
    HoldKeys(db, i);
    CaptureTxKeepsInv(db, o, s, capturedAt);
    var spent := CaptureTx(db, o, s, capturedAt).db;
    LotFacts(spent, r);
    SettleEvolves(db, o, s, capturedAt);
    assert RowEvolves(db.lots[r], spent.lots[r]);
    WonLotFollowsTheClock(spent, r, wonAt);
  }

  // ---- runs from the empty database that end with a spent lot that is not exhausted ----

  const LATER := FIRST_FIVE_EXPIRY_DAYS * DAY_MS
  const LAPSED := LATER + PAID_CREDIT_EXPIRY_DAYS * DAY_MS
  const PURCHASE := GrantInput(1, 1, 100, "EUR", 7, LATER, 2)

  /** A wallet whose free credits have lapsed buys one credit and holds it for a session. */
  const ONE_CREDIT_HELD := [EnsureWallet(1, 0, FIRST_FIVE_EXPIRY_DAYS, 1), Grant(PURCHASE), ReserveFor(1, 9, LATER)]

  const FREE_ROW := FirstFiveRow(1, 0, FIRST_FIVE_EXPIRY_DAYS, 1)
  const BOUGHT := PaidRow(PURCHASE)

  lemma OpenedState()
    ensures Keyed(EMPTY_DB)
    ensures var db := Run(EMPTY_DB, ONE_CREDIT_HELD[..1]);
            db.lots == [FREE_ROW] && db.holds == [] && 1 in db.wallets && db.wallets[1].currency.None?
  {
    RunOneMore(EMPTY_DB, [], ONE_CREDIT_HELD[0]);
    assert ONE_CREDIT_HELD[..1] == [] + [ONE_CREDIT_HELD[0]];
  }

  lemma Buys(db: Db)
    requires Keyed(db) && db.lots == [FREE_ROW] && db.holds == [] && 1 in db.wallets && db.wallets[1].currency.None?
    ensures var end := Apply(db, Grant(PURCHASE));
            end.lots == [FREE_ROW, BOUGHT] && end.holds == [] && 1 in end.wallets
  {
    hide Keyed, Upper;
    assert FirstConflict(db.lots, 1, Upper(PURCHASE.currency)).None?;
  }

  lemma BoughtState()
    ensures Keyed(EMPTY_DB)
    ensures var db := Run(EMPTY_DB, ONE_CREDIT_HELD[..2]);
            db.lots == [FREE_ROW, BOUGHT] && db.holds == [] && 1 in db.wallets
  {
    hide Keyed, Run, Apply;
    OpenedState();
    Buys(Run(EMPTY_DB, ONE_CREDIT_HELD[..1]));
    RunOneMore(EMPTY_DB, ONE_CREDIT_HELD[..1], ONE_CREDIT_HELD[1]);
    assert ONE_CREDIT_HELD[..2] == ONE_CREDIT_HELD[..1] + [ONE_CREDIT_HELD[1]];
  }

  /** The one bought credit is held for the session; the free lot has been written off. */
  ghost predicate Holding(db: Db) {
    && |db.lots| == 2 && db.lots[1] == BOUGHT.(lot := BOUGHT.lot.(reserved := 1))
    && db.holds == [Hold(1, 9, 1, Held, LATER, LATER + TTL, None)]
    && 1 in db.wallets
  }

  lemma HeldState()
    ensures Keyed(EMPTY_DB) && Inv(Run(EMPTY_DB, ONE_CREDIT_HELD)) && Holding(Run(EMPTY_DB, ONE_CREDIT_HELD))
  {
    hide Inv;
    EmptyIsOk();
    InvKeyed(EMPTY_DB);
    RunKeepsInv(EMPTY_DB, ONE_CREDIT_HELD);
    BoughtState();
    var db := Run(EMPTY_DB, ONE_CREDIT_HELD[..2]);
    RunOneMore(EMPTY_DB, ONE_CREDIT_HELD[..2], ONE_CREDIT_HELD[2]);
    assert ONE_CREDIT_HELD == ONE_CREDIT_HELD[..2] + [ONE_CREDIT_HELD[2]];
    hide Run;
    BoughtIsHeld(db);
  }

  lemma BoughtIsHeld(db: Db)
    requires Keyed(db) && db.lots == [FREE_ROW, BOUGHT] && db.holds == [] && 1 in db.wallets
    ensures Holding(Apply(db, ReserveFor(1, 9, LATER)))
  {
    hide Keyed, SelectRow, StaleOn;
    TtlSweepRows(db, 1, LATER);
    NothingStale(db);
    var swept := Swept(db, 1, LATER);
    ExpirySweepRows(TtlSweep(db, 1, LATER), 1, LATER);
    hide TtlSweep, ExpirySweep;
    assert swept.lots[0].lot.status == Expired && swept.lots[1] == BOUGHT;
    SelectRowIsBest(swept, 1, LATER);
    assert CanServe(swept.lots[1], 1, LATER);
    assert SelectRow(swept, 1, LATER) == Some(1);
    SlotStaysFree(db, 1, 9, LATER);
  }

  lemma NothingStale(db: Db)
    requires db.holds == []
    ensures forall q: nat :: StaleOn(db.holds, 1, LATER, q) == 0
  {
  }

  datatype Closing = ByDispute | ByExpiry | ByRefund

  /** The lot is closed while its only credit is held, the held credit is captured, and a dispute is then won. */
  function SpentAfter(closing: Closing): seq<Step> {
    ONE_CREDIT_HELD +
    match closing
    case ByDispute => [FreezeLot(1, LATER), CaptureFor(1, 9, LATER), ResolveDispute(1, true, LATER)]
    case ByExpiry => [ExpireDue(1, LAPSED), CaptureFor(1, 9, LAPSED)]
    case ByRefund => [RefundLot(1, 100, 100), CaptureFor(1, 9, LATER)]
  }

  function StatusAfter(closing: Closing): LotStatus {
    match closing
    case ByDispute => Active
    case ByExpiry => Expired
    case ByRefund => Revoked
  }

  ghost predicate Closed(db: Db, status: LotStatus) {
    && |db.lots| == 2 && db.lots[1].lot == BOUGHT.lot.(reserved := 1, status := status)
    && db.holds == [Hold(1, 9, 1, Held, LATER, LATER + TTL, None)]
  }

  lemma ClosesHeldLot(db: Db, closing: Closing)
    requires Keyed(db) && Holding(db)
    ensures Closed(Apply(db, SpentAfter(closing)[3]), if closing.ByDispute? then Frozen else StatusAfter(closing))
  {
    hide Keyed;
    LotKeys(db, 1);
    ExpirySweepRows(db, 1, LAPSED);
    hide ExpirySweep;
  }

  /** Whichever way the lot was closed, its last credit is consumed and its status is not exhausted. */
  lemma SpentIsNotExhausted(closing: Closing)
    ensures Keyed(EMPTY_DB)
    ensures var end := Run(EMPTY_DB, SpentAfter(closing));
            |end.lots| == 2 && Spent(end.lots[1].lot) && end.lots[1].lot.status == StatusAfter(closing)
  {
    hide Inv, Keyed, Run, Apply;
    HeldState();
    var steps := SpentAfter(closing);
    var db := Run(EMPTY_DB, ONE_CREDIT_HELD);
    InvKeyed(db);
    assert steps[..3] == ONE_CREDIT_HELD && steps[..4] == steps[..3] + [steps[3]] && steps[..5] == steps[..4] + [steps[4]];
    RunOneMore(EMPTY_DB, steps[..3], steps[3]);
    RunOneMore(EMPTY_DB, steps[..4], steps[4]);
    ClosesHeldLot(db, closing);
    ApplyKeepsInv(db, steps[3]);
    CapturesLast(Apply(db, steps[3]), if closing.ByDispute? then Frozen else StatusAfter(closing), steps[4].now);
    var spent := Apply(Apply(db, steps[3]), steps[4]);
    if closing.ByDispute? {
      assert steps == steps[..5] + [steps[5]];
      RunOneMore(EMPTY_DB, steps[..5], steps[5]);
      WonLast(spent);
    } else {
      assert steps == steps[..5];
    }
  }

  lemma CapturesLast(db: Db, status: LotStatus, now: int)
    requires Inv(db) && Closed(db, status) && status != Active
    ensures Keyed(db)
    ensures var end := Apply(db, CaptureFor(1, 9, now));
            && |end.lots| == 2 && Spent(end.lots[1].lot) && end.lots[1].lot.status == status
            && end.lots[1].lot.expiresAt == BOUGHT.lot.expiresAt
  {
    hide Inv, Keyed;
    InvKeyed(db);
    HoldKeys(db, 0);
  }

  lemma WonLast(db: Db)
    requires Keyed(db) && |db.lots| == 2 && Spent(db.lots[1].lot) && db.lots[1].lot.status == Frozen
    requires db.lots[1].lot.expiresAt == BOUGHT.lot.expiresAt
    ensures var end := Apply(db, ResolveDispute(1, true, LATER));
            |end.lots| == 2 && Spent(end.lots[1].lot) && end.lots[1].lot.status == Active
  {
    hide Keyed, ResolveTx;
    WonLotFollowsTheClock(db, 1, LATER);
    WonKeepsRows(db);
  }

  lemma WonKeepsRows(db: Db)
    requires Keyed(db) && |db.lots| == 2
    ensures |ResolveTx(db, 1, true, LATER).db.lots| == 2
  {
    hide Keyed;
  }
}
