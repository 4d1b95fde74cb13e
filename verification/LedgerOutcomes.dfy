/**
 * What each call answers and what it leaves, in the caller's terms: exactly when each outcome is given, and what it has
 * done to the hold, the lot and the wallet it concerns.
 */
module LedgerOutcomes {
  import opened Sums
  import opened CreditLots
  import opened LedgerModel
  import opened LedgerInvariant
  import opened LedgerRuns
  import opened LedgerHistory
  import opened LedgerGuarantees
  import opened SweepConfluence

  // ---- opening a wallet, buying credits ----

  /** The lot can serve from the moment of its grant until it lapses, and is due from then on. */
  predicate ServesUntil(row: LotRow, o: OrgId, lapse: int) {
    && row.org == o && row.lot.status == Active && row.lot.consumed == 0 && row.lot.reserved == 0 && row.lot.granted > 0
    && row.lot.expiresAt == lapse
  }

  lemma ServesMeans(row: LotRow, o: OrgId, lapse: int, t: int)
    requires ServesUntil(row, o, lapse)
    ensures CanServe(row, o, t) <==> t < lapse
    ensures DueLot(row, o, t) <==> lapse <= t
  {
  }

  /** A new wallet has five free credits, good for the days given, and nothing else; an existing one is left alone. */
  lemma WalletOpened(db: Db, o: OrgId, now: int, days: int, lotId: int)
    requires Keyed(db)
    ensures var r := EnsureWalletTx(db, o, now, days, lotId);
            && (r.out.Returned? <==> o in db.wallets || FindId(db.lots, lotId).None?)
            && (o in db.wallets || r.out.Thrown? ==> r.db == db)
            && (r.out.Returned? && o !in db.wallets ==>
                  && r.db.wallets == db.wallets[o := Wallet(5, 0, None)] && r.db.holds == db.holds
                  && |r.db.lots| == |db.lots| + 1 && r.db.lots[..|db.lots|] == db.lots
                  && var row := r.db.lots[|db.lots|];
                     && ServesUntil(row, o, now + days * 24 * 60 * 60 * 1000) && row.lot.kind == Free
                     && row.lot.granted == 5 && row.lot.grantedAt == now && row.lot.id == lotId && row.payment.None?)
  {
    hide Keyed, FindId;
    assert db.wallets[o := Wallet(0, 0, None)][o := Wallet(5, 0, None)] == db.wallets[o := Wallet(5, 0, None)];
  }

  /** Bad amounts, and only they, are refused before anything is looked at. */
  lemma BadPurchaseIsRefused(db: Db, g: GrantInput)
    requires Keyed(db)
    ensures GrantTx(db, g).out == Thrown(InvalidPurchaseAmount) <==> g.credits <= 0 || g.unitAmountCents < 0
    ensures GrantTx(db, g).out.Thrown? ==> GrantTx(db, g).db == db
  {
    hide Keyed, FindId, FindPayment, CurrencyConflict, Upper;
  }

  /** A granted purchase adds one paid lot with its credits, price and upper-case currency, good for 365 days, and credits the wallet. */
  lemma PurchaseGranted(db: Db, g: GrantInput)
    requires Keyed(db) && GrantTx(db, g).out == Returned(Granted(|db.lots|))
    ensures var end := GrantTx(db, g).db;
            && g.org in db.wallets && end.holds == db.holds
            && end.wallets == db.wallets[g.org := Wallet(db.wallets[g.org].available + g.credits,
                                                         db.wallets[g.org].reserved, Some(Upper(g.currency)))]
            && |end.lots| == |db.lots| + 1 && end.lots[..|db.lots|] == db.lots
            && var row := end.lots[|db.lots|];
               && ServesUntil(row, g.org, g.now + 365 * 24 * 60 * 60 * 1000) && row.lot.kind == Paid
               && row.lot.granted == g.credits && row.lot.grantedAt == g.now && row.lot.id == g.lotId
               && row.unitAmountCents == Some(g.unitAmountCents) && row.currency == Upper(g.currency)
               && row.payment == Some(g.payment)
  {
    hide Keyed, FindId, FindPayment, CurrencyConflict, Upper;
    var w := db.wallets[g.org].(currency := Some(Upper(g.currency)));
    assert db.wallets[g.org := w][g.org := w.(available := w.available + g.credits)] ==
           db.wallets[g.org := w.(available := w.available + g.credits)];
  }

  /** Currency codes are compared in capitals: a small letter becomes its capital, and nothing else changes. */
  lemma CapitalsMean(s: string, i: nat)
    requires i < |s|
    ensures |Upper(s)| == |s|
    ensures Upper(s)[i] as int == if 'a' <= s[i] <= 'z' then s[i] as int - 32 else s[i] as int
  {
    CapitalOf(s[i]);
  }

  lemma CapitalOf(c: char)
    ensures UpperChar(c) as int == if 'a' <= c <= 'z' then c as int - 32 else c as int
  {
  }

  // ---- reserving ----

  /** Row i is the session's, and belongs to the organization. */
  predicate Owns(db: Db, o: OrgId, s: SessionId, i: nat) {
    i < |db.holds| && db.holds[i].session == s && db.holds[i].org == o
  }

  lemma OwnRow(db: Db, o: OrgId, s: SessionId, i: nat)
    requires Keyed(db) && Owns(db, o, s, i)
    ensures FindHold(db.holds, s) == Some(i) && o in db.wallets
  {
    SameSessionSameRow(db, i, s);
    HoldKeys(db, i);
  }

  /** A session with a captured hold is answered ok and nothing is written; one with a live hold gets a full TTL from now. */
  lemma ResumedOk(db: Db, o: OrgId, s: SessionId, now: int, i: nat)
    requires Keyed(db) && Owns(db, o, s, i) && db.holds[i].status != Released
    ensures var r := ReserveTx(db, o, s, now);
            && r.out == Returned(ReserveOk(i))
            && (db.holds[i].status == Captured ==> r.db == db)
            && (db.holds[i].status == Held ==>
                  r.db == db.(holds := db.holds[i := db.holds[i].(expiresAt := now + 60 * 60 * 1000)]))
  {
    OwnRow(db, o, s, i);
    hide Keyed, FindHold, FreshHold;
  }

  /** Another organization's session, or an organization without a wallet, is an error that writes nothing. */
  lemma ReserveThrowsIff(db: Db, o: OrgId, s: SessionId, now: int)
    requires Keyed(db)
    ensures var r := ReserveTx(db, o, s, now);
            && (r.out.Thrown? ==> r.db == db)
            && (r.out == Thrown(MissingCreditWallet) <==> o !in db.wallets)
            && (r.out == Thrown(ReservationOrganizationMismatch) <==>
                  o in db.wallets && exists i: nat :: i < |db.holds| && db.holds[i].session == s && db.holds[i].org != o)
  {
    hide Swept, SelectRow;
    var slot := FindHold(db.holds, s);
    forall i: nat | i < |db.holds| && db.holds[i].session == s ensures slot == Some(i) {
      SameSessionSameRow(db, i, s);
    }
    hide Keyed, FindHold;
  }

  /** b is a but for hold row i, newly written, and one credit that moved from available to reserved on its lot. */
  predicate HoldTaken(a: Db, b: Db, i: nat, h: Hold) {
    && i <= |a.holds| && |b.holds| == (if i < |a.holds| then |a.holds| else i + 1) && b.holds[i] == h
    && (i < |a.holds| ==> a.holds[i].session == h.session)
    && (forall k | 0 <= k < |a.holds| && k != i :: b.holds[k] == a.holds[k])
    && |b.lots| == |a.lots| && h.lot < |a.lots|
    && (forall q | 0 <= q < |a.lots| && q != h.lot :: b.lots[q] == a.lots[q])
    && b.lots[h.lot].lot == a.lots[h.lot].lot.(reserved := a.lots[h.lot].lot.reserved + 1)
    && h.org in a.wallets && h.org in b.wallets
    && b.wallets[h.org].available == a.wallets[h.org].available - 1
    && b.wallets[h.org].reserved == a.wallets[h.org].reserved + 1
  }

  /** A fresh hold: live for a full TTL from now, over the session's released row or on a new one, one credit moved. */
  lemma FreshHoldTaken(db: Db, o: OrgId, s: SessionId, now: int)
    requires Keyed(db) && o in db.wallets && NeedsFreshHold(db, o, s)
    requires ReserveTx(db, o, s, now).out.value.ReserveOk?
    ensures var r := ReserveTx(db, o, s, now);
            var i := r.out.value.hold;
            && i < |r.db.holds| && HoldTaken(Swept(db, o, now), r.db, i, r.db.holds[i])
            && r.db.holds[i] == Hold(o, s, r.db.holds[i].lot, Held, now, now + 60 * 60 * 1000, None)
  {
    hide Keyed, Swept, SelectRow, FindHold;
    SlotStaysFree(db, o, s, now);
    ReserveWrites(db, o, s, now);
    var r := ReserveTx(db, o, s, now);
    var h := Hold(o, s, SelectRow(Swept(db, o, now), o, now).value, Held, now, now + 60 * 60 * 1000, None);
    assert HoldTaken(Swept(db, o, now), r.db, r.out.value.hold, h);
  }

  lemma ReserveWrites(db: Db, o: OrgId, s: SessionId, now: int)
    requires Keyed(db) && o in db.wallets && NeedsFreshHold(db, o, s)
    ensures ReserveTx(db, o, s, now) == FreshHold(db, o, s, FindHold(db.holds, s), now)
    ensures |Swept(db, o, now).holds| == |db.holds|
    ensures forall r: nat | r < |Swept(db, o, now).lots| :: Swept(db, o, now).lots[r].org in Swept(db, o, now).wallets
  {
    ResolvedStay(db, o, now);
  }

  // ---- capturing and releasing ----

  predicate HasLive(db: Db, o: OrgId, s: SessionId) {
    exists i: nat :: i < |db.holds| && Owns(db, o, s, i) && db.holds[i].status == Held
  }

  predicate HasCaptured(db: Db, o: OrgId, s: SessionId) {
    exists i: nat :: i < |db.holds| && Owns(db, o, s, i) && db.holds[i].status == Captured
  }

  predicate HasRow(db: Db, o: OrgId, s: SessionId) {
    exists i: nat :: i < |db.holds| && Owns(db, o, s, i)
  }

  lemma OneRow(db: Db, o: OrgId, s: SessionId)
    requires Keyed(db)
    ensures var slot := FindHold(db.holds, s);
            && (HasRow(db, o, s) <==> slot.Some? && db.holds[slot.value].org == o)
            && (HasLive(db, o, s) <==> slot.Some? && db.holds[slot.value].org == o && db.holds[slot.value].status == Held)
            && (HasCaptured(db, o, s) <==> slot.Some? && db.holds[slot.value].org == o && db.holds[slot.value].status == Captured)
  {
    var slot := FindHold(db.holds, s);
    forall i: nat | i < |db.holds| && Owns(db, o, s, i) ensures slot == Some(i) {
      SameSessionSameRow(db, i, s);
    }
    hide Keyed, FindHold;
    if slot.Some? && db.holds[slot.value].org == o {
      assert Owns(db, o, s, slot.value);
    }
  }

  /** Exactly when a capture is done, repeated, or has nothing to take; only a done one writes. */
  lemma CaptureAnswers(db: Db, o: OrgId, s: SessionId, now: int)
    requires Keyed(db) && o in db.wallets
    ensures var r := CaptureTx(db, o, s, now);
            && (r.out == Returned(CaptureDone) <==> HasLive(db, o, s))
            && (r.out == Returned(AlreadyCaptured) <==> HasCaptured(db, o, s))
            && (r.out == Returned(NothingToCapture) <==> !HasLive(db, o, s) && !HasCaptured(db, o, s))
            && (r.out != Returned(CaptureDone) ==> r.db == db)
  {
    OneRow(db, o, s);
    hide Keyed, FindHold, CaptureHold, HasLive, HasCaptured, HasRow;
  }

  /** A capture turns one held credit of the hold's lot into a consumed one, and the available balance stays. */
  lemma CaptureTakes(db: Db, o: OrgId, s: SessionId, now: int, i: nat)
    requires Keyed(db) && Owns(db, o, s, i) && db.holds[i].status == Held
    ensures var end := CaptureTx(db, o, s, now).db;
            var q := db.holds[i].lot;
            && o in db.wallets && o in end.wallets && q < |db.lots| && |end.lots| == |db.lots|
            && end.holds == db.holds[i := db.holds[i].(status := Captured, resolvedAt := Some(now))]
            && end.lots[q].lot.reserved == db.lots[q].lot.reserved - 1
            && end.lots[q].lot.consumed == db.lots[q].lot.consumed + 1
            && (forall k | 0 <= k < |db.lots| && k != q :: end.lots[k] == db.lots[k])
            && end.wallets[o].available == db.wallets[o].available
            && end.wallets[o].reserved == db.wallets[o].reserved - 1
  {
    OwnRow(db, o, s, i);
    HoldKeys(db, i);
    hide Keyed, FindHold;
  }

  /** Exactly when a release is done, was resolved before, or has nothing to give back; only a done one writes. */
  lemma ReleaseAnswers(db: Db, o: OrgId, s: SessionId, now: int)
    requires Keyed(db) && o in db.wallets
    ensures var r := ReleaseTx(db, o, s, now);
            && (r.out == Returned(ReleaseDone) <==> HasLive(db, o, s))
            && (r.out == Returned(AlreadyResolved) <==> HasRow(db, o, s) && !HasLive(db, o, s))
            && (r.out == Returned(NothingToRelease) <==> !HasRow(db, o, s))
            && (r.out != Returned(ReleaseDone) ==> r.db == db)
  {
    OneRow(db, o, s);
    hide Keyed, FindHold, ReleaseHold, ExpirySweep, HasLive, HasCaptured, HasRow;
  }

  /** A release gives the credit back to its lot, which then lapses if its time has come and it was still open. */
  lemma ReleaseGivesBack(db: Db, o: OrgId, s: SessionId, now: int, i: nat)
    requires Keyed(db) && Owns(db, o, s, i) && db.holds[i].status == Held
    ensures var end := ReleaseTx(db, o, s, now).db;
            var q := db.holds[i].lot;
            && q < |db.lots| && |end.lots| == |db.lots|
            && end.holds == db.holds[i := db.holds[i].(status := Released, resolvedAt := Some(now))]
            && end.lots[q].lot.reserved == db.lots[q].lot.reserved - 1
            && end.lots[q].lot.consumed == db.lots[q].lot.consumed
            && end.lots[q].lot.status ==
               (if db.lots[q].lot.status == Active && db.lots[q].lot.expiresAt <= now then Expired else db.lots[q].lot.status)
  {
    OwnRow(db, o, s, i);
    HoldKeys(db, i);
    ReleaseRows(db, i, now);
    hide Keyed, FindHold;
    ExpirySweepRows(ReleaseHold(db, i, now), o, now);
    hide ReleaseHold, ExpirySweep;
  }

  // ---- money exits ----

  /** A dispute freezes exactly an active lot, is parked for an operator exactly on an exhausted one, and is otherwise a replay. */
  lemma FreezeAnswers(db: Db, r: nat, now: int)
    requires Keyed(db) && r < |db.lots|
    ensures var t := FreezeTx(db, r, now);
            var status := db.lots[r].lot.status;
            && t.out.Returned?
            && (t.out.value.Applied? <==> status == Active)
            && (t.out.value == NeedsAdmin(r, "dispute_after_consumption") <==> status == Exhausted)
            && (t.out.value == AlreadyApplied(r, status) <==> status == Expired || status == Frozen || status == Revoked)
            && (status != Active ==> t.db == db)
  {
    hide Keyed, CloseLot;
  }

  /** An applied freeze blocks the lot, stamps it, and reports exactly the credits that left the wallet; held ones stay held. */
  lemma FreezeBlocks(db: Db, r: nat, now: int)
    requires Keyed(db) && r < |db.lots| && db.lots[r].lot.status == Active
    ensures var t := FreezeTx(db, r, now);
            var o := db.lots[r].org;
            && o in db.wallets && o in t.db.wallets && t.out.value.Applied?
            && t.db.holds == db.holds
            && t.db.lots == db.lots[r := db.lots[r].(frozenAt := Some(now), lot := db.lots[r].lot.(status := Frozen))]
            && t.out.value.lot == r
            && t.out.value.credits == db.wallets[o].available - t.db.wallets[o].available
            && t.out.value.credits == db.lots[r].lot.granted - db.lots[r].lot.consumed - db.lots[r].lot.reserved
  {
    LotKeys(db, r);
    hide Keyed;
  }

  /** A resolution applies exactly to a frozen lot. Lost, it revokes it and moves no balance; won, it reports what came back. */
  lemma ResolveAnswers(db: Db, r: nat, won: bool, now: int)
    requires Keyed(db) && r < |db.lots|
    ensures var t := ResolveTx(db, r, won, now);
            var row := db.lots[r];
            && t.out.Returned?
            && (t.out.value.Applied? <==> row.lot.status == Frozen)
            && (row.lot.status != Frozen ==> t.out.value == AlreadyApplied(r, row.lot.status) && t.db == db)
            && (row.lot.status == Frozen && !won ==>
                  && t.out.value == Applied(r, 0)
                  && t.db == db.(lots := db.lots[r := row.(lot := row.lot.(status := Revoked))]))
            && (row.lot.status == Frozen && won ==>
                  && t.out.value == Applied(r, row.lot.granted - row.lot.consumed - row.lot.reserved)
                  && t.db == ExpirySweep(ReopenLot(db, r), row.org, now))
  {
    hide Keyed, ReopenLot, ExpirySweep;
  }

  lemma CapturedIsConsumed(db: Db, r: nat)
    requires Inv(db) && r < |db.lots|
    ensures db.lots[r].lot.consumed == Sum(db.holds, CapturedOn(r)) && CountsOk(db.lots[r].lot)
  {
    hide Keyed, LogKeyed, WalletsOk, SessionsOk, EntriesOk, PaidOk;
    assert TallyOk(db.holds, r, db.lots[r].lot) && CountsOk(db.lots[r].lot);
  }

  /**
   * A full refund is applied exactly to an active lot on which no session was ever charged. On an exhausted lot, or an
   * active one with a charged session, it is parked for an operator; on any other it is a replay. Only an applied one writes.
   */
  lemma FullRefundAnswers(db: Db, r: nat, refunded: int, charged: int)
    requires Inv(db) && r < |db.lots| && refunded >= charged
    ensures Keyed(db)
    ensures var t := RefundTx(db, r, refunded, charged);
            var status := db.lots[r].lot.status;
            var sessions := Sum(db.holds, CapturedOn(r));
            && t.out.Returned?
            && (t.out.value.Applied? <==> status == Active && sessions == 0)
            && (t.out.value == NeedsAdmin(r, "full_refund_after_consumption") <==>
                  status == Exhausted || (status == Active && sessions > 0))
            && (t.out.value == AlreadyApplied(r, status) <==> status == Expired || status == Frozen || status == Revoked)
            && (!t.out.value.Applied? ==> t.db == db)
  {
    hide Inv, Keyed, CloseLot, MatchesUnconsumedProrata;
    InvKeyed(db);
    CapturedIsConsumed(db, r);
  }

  /** A partial refund is applied exactly to an active lot whose gate it passes. */
  lemma PartialRefundAnswers(db: Db, r: nat, refunded: int, charged: int)
    requires Keyed(db) && r < |db.lots| && refunded < charged
    ensures var t := RefundTx(db, r, refunded, charged);
            var row := db.lots[r];
            var left := row.lot.granted - row.lot.consumed - row.lot.reserved;
            var passes := MatchesUnconsumedProrata(row.unitAmountCents, row.lot.granted, left, refunded);
            && t.out.Returned?
            && (t.out.value.Applied? <==> row.lot.status == Active && passes)
            && (t.out.value == NeedsAdmin(r, "partial_refund_not_prorata") <==> row.lot.status == Active && !passes)
            && (t.out.value == NeedsAdmin(r, "full_refund_after_consumption") <==> row.lot.status == Exhausted)
            && (!t.out.value.Applied? ==> t.db == db)
  {
    hide Keyed, CloseLot, MatchesUnconsumedProrata;
  }

  /** An applied refund revokes the lot and reports exactly the credits that left the wallet; held ones stay held. */
  lemma RefundRevokes(db: Db, r: nat, refunded: int, charged: int)
    requires Keyed(db) && r < |db.lots| && RefundTx(db, r, refunded, charged).out.value.Applied?
    ensures var t := RefundTx(db, r, refunded, charged);
            var o := db.lots[r].org;
            && o in db.wallets && o in t.db.wallets
            && t.db.holds == db.holds
            && t.db.lots == db.lots[r := db.lots[r].(lot := db.lots[r].lot.(status := Revoked))]
            && t.out.value.lot == r
            && t.out.value.credits == db.wallets[o].available - t.db.wallets[o].available
            && t.out.value.credits == db.lots[r].lot.granted - db.lots[r].lot.consumed - db.lots[r].lot.reserved
  {
    LotKeys(db, r);
    hide Keyed, MatchesUnconsumedProrata;
  }

  // ---- sweeps ----

  ghost function Overdue(o: OrgId, now: int): Hold -> int {
    (h: Hold) => if h.org == o && h.status == Held && h.expiresAt <= now then 1 else 0
  }

  lemma {:induction false} DueCount(holds: seq<Hold>, o: OrgId, now: int)
    ensures |DueHolds(holds, o, now)| == Sum(holds, Overdue(o, now))
  {
    if holds != [] {
      var n := |holds| - 1;
      DueCount(holds[..n], o, now);
      assert holds == holds[..n] + [holds[n]];
      SumAppend(holds[..n], holds[n], Overdue(o, now));
    }
  }

  /** The scheduled sweeps report the number of overdue holds and exactly the lapsed active lots, each once. */
  lemma SweepsReport(db: Db, o: OrgId, now: int)
    requires Keyed(db) && o in db.wallets
    ensures ReleaseExpiredTx(db, o, now).out == Returned(Sum(db.holds, Overdue(o, now)))
    ensures var r := ExpireDueTx(db, o, now).out;
            && r.Returned?
            && (forall q: nat :: q in r.value <==>
                  q < |db.lots| && db.lots[q].org == o && db.lots[q].lot.status == Active && db.lots[q].lot.expiresAt <= now)
            && (forall i, j | 0 <= i < j < |r.value| :: r.value[i] != r.value[j])
  {
    DueCount(db.holds, o, now);
    var due := DueLots(db.lots, o, now);
    hide Keyed, Swept, ExpirySweep;
    forall q: nat ensures q in due <==> q < |db.lots| && DueLot(db.lots[q], o, now) {
      if q in due {
        var k :| 0 <= k < |due| && due[k] == q;
      }
    }
  }
}
