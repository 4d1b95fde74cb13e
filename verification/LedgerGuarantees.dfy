/** The promises of the ledger, stated over every run from every balanced state. */
module LedgerGuarantees {
  import opened Sums
  import opened CreditLots
  import opened LedgerModel
  import opened LedgerInvariant
  import opened LedgerRuns
  import opened LedgerHistory
  import opened SweepConfluence

  // ---- conservation ----

  /** After any run the stored counters equal both recomputations and are never negative. */
  lemma Conservation(db: Db, steps: seq<Step>, o: OrgId)
    requires Inv(db) && o in Run(db, steps).wallets
    ensures var end := Run(db, steps);
            && end.wallets[o].available == Sum(end.log, DeltaOf(o))
            && end.wallets[o].available == Sum(end.lots, Spendable(o))
            && end.wallets[o].reserved == Sum(end.lots, ReservedIn(o))
            && end.wallets[o].reserved == Sum(end.holds, HeldFor(o))
            && end.wallets[o].available >= 0 && end.wallets[o].reserved >= 0
  {
    RunKeepsInv(db, steps);
    var end := Run(db, steps);
    CountersNonnegative(end, o);
    assert WalletOk(end, o);
  }

  lemma CountersNonnegative(db: Db, o: OrgId)
    requires Inv(db) && o in db.wallets
    ensures db.wallets[o].available >= 0 && db.wallets[o].reserved >= 0
  {
    hide Keyed, LogKeyed, SessionsOk;
    assert WalletOk(db, o);
    forall r | 0 <= r < |db.lots| ensures Spendable(o)(db.lots[r]) >= 0 && ReservedIn(o)(db.lots[r]) >= 0 {
      assert CountsOk(db.lots[r].lot);
    }
    SumBounds(db.lots, Spendable(o));
    SumBounds(db.lots, ReservedIn(o));
  }

  /** After any run the entries naming a lot sum to its spendable balance, and its counters count its holds. */
  lemma LotConservation(db: Db, steps: seq<Step>, r: nat)
    requires Inv(db) && r < |Run(db, steps).lots|
    ensures var end := Run(db, steps);
            var lot := end.lots[r].lot;
            && Sum(end.log, DeltaOn(r)) == (if lot.status == Active then AvailableInLot(lot) else 0)
            && lot.reserved == Sum(end.holds, HeldOn(r))
            && lot.consumed == Sum(end.holds, CapturedOn(r))
            && 0 <= lot.consumed && 0 <= lot.reserved && lot.consumed + lot.reserved <= lot.granted
  {
    RunKeepsInv(db, steps);
    var end := Run(db, steps);
    assert CountsOk(end.lots[r].lot) && TallyOk(end.holds, r, end.lots[r].lot) && EntriesOk(end.log, r, end.lots[r].lot);
  }

  // ---- one charge per session ----

  lemma OneRowPerSession(db: Db, s: SessionId, f: Hold -> int, i: nat)
    requires Keyed(db) && i < |db.holds| && db.holds[i].session == s
    requires forall h: Hold | h.session != s :: f(h) == 0
    ensures Sum(db.holds, f) == f(db.holds[i])
  {
    OneContribution(db.holds, |db.holds|, f, i);
  }

  lemma {:induction false} OneContribution(holds: seq<Hold>, n: nat, f: Hold -> int, i: nat)
    requires i < n <= |holds|
    requires forall j | 0 <= j < n && j != i :: f(holds[j]) == 0
    ensures SumTo(holds, n, f) == f(holds[i])
  {
    if i == n - 1 {
      SumToZero(holds, n - 1, f);
    } else {
      OneContribution(holds, n - 1, f, i);
    }
  }

  /** What the log says about a session is decided by its one reservation row. */
  lemma SessionAudit(db: Db, s: SessionId)
    requires Inv(db)
    ensures var slot := FindHold(db.holds, s);
            && Sum(db.log, ConsumesOf(s)) == (if slot.Some? && db.holds[slot.value].status == Captured then 1 else 0)
            && Sum(db.log, NetReservesOf(s)) == (if slot.Some? && db.holds[slot.value].status != Released then 1 else 0)
  {
    hide LogKeyed, LotsOk, WalletsOk;
    assert SessionOk(db, s);
    var slot := FindHold(db.holds, s);
    if slot.Some? {
      OneRowPerSession(db, s, CapturedBy(s), slot.value);
      OneRowPerSession(db, s, TakenBy(s), slot.value);
    } else {
      SumZero(db.holds, CapturedBy(s));
      SumZero(db.holds, TakenBy(s));
    }
  }

  /** No run charges a session twice, even through release and re-hold on another lot. */
  lemma ChargedAtMostOnce(db: Db, steps: seq<Step>, s: SessionId)
    requires Inv(db)
    ensures Sum(Run(db, steps).log, ConsumesOf(s)) <= 1
  {
    RunKeepsInv(db, steps);
    SessionAudit(Run(db, steps), s);
  }

  /** A captured session is never released or charged again: its row is final, and so is its one charge. */
  lemma CapturedForGood(db: Db, steps: seq<Step>, i: nat, o: OrgId, now: int)
    requires Inv(db) && i < |db.holds| && db.holds[i].status == Captured
    ensures var s, end := db.holds[i].session, Run(db, steps);
            && i < |end.holds| && end.holds[i] == db.holds[i]
            && ReleaseTx(end, o, s, now).db == end && CaptureTx(end, o, s, now).db == end && ReserveTx(end, o, s, now).db == end
            && Sum(end.log, ConsumesOf(s)) == 1
  {
    hide Inv, Keyed, FindHold, FreshHold, Run;
    InvKeyed(db);
    RunKeepsInv(db, steps);
    RunEvolves(db, steps);
    var s, end := db.holds[i].session, Run(db, steps);
    assert HoldEvolves(db.holds[i], end.holds[i]);
    SameSessionSameRow(end, i, s);
    SessionAudit(end, s);
  }

  // ---- hold safety ----

  /** Hold row i is captured, or live until the deadline at least. */
  predicate Backed(db: Db, i: nat, deadline: int) {
    && i < |db.holds|
    && (db.holds[i].status == Captured || (db.holds[i].status == Held && db.holds[i].expiresAt >= deadline))
  }

  /**
   * The step does not take the hold of session s away before the deadline: it is no release of s, no sweep at or past the
   * deadline, and no renewal of s from before the window opened. The clock of any other step does not matter.
   */
  predicate Harmless(step: Step, s: SessionId, from: int, deadline: int) {
    match step
    case ReserveFor(_, t, now) => if t == s then from <= now else now < deadline
    case ReleaseFor(_, t, _) => t != s
    case ReleaseExpired(_, now) => now < deadline
    case _ => true
  }

  /** Exactly what takes a live hold away: its release, a sweep past its expiry, or a renewal that shortens it. */
  predicate Unbacks(db: Db, step: Step, i: nat, deadline: int)
    requires i < |db.holds|
  {
    var h := db.holds[i];
    && h.status == Held
    && match step
       case ReleaseFor(o, s, _) => o == h.org && s == h.session
       case ReleaseExpired(o, now) => o == h.org && h.expiresAt <= now
       case ReserveFor(o, s, now) =>
         o == h.org && (if s == h.session then now + TTL < deadline else NeedsFreshHold(db, o, s) && h.expiresAt <= now)
       case _ => false
  }

  lemma ExpirySweepKeepsHolds(db: Db, o: OrgId, now: int)
    requires Keyed(db)
    ensures ExpirySweep(db, o, now).holds == db.holds
  {
    var due := DueLots(db.lots, o, now);
    ExpiriesKeepHolds(db, due, |due|);
  }

  /** A sweep takes exactly the holds that are due. */
  lemma SweptHold(db: Db, o: OrgId, now: int, i: nat)
    requires Keyed(db) && i < |db.holds|
    ensures i < |Swept(db, o, now).holds|
    ensures Swept(db, o, now).holds[i] ==
            if DueHold(db.holds[i], o, now) then ReleasedHold(db.holds[i], now) else db.holds[i]
  {
    hide Keyed, ExpirySweep, StaleOn;
    TtlSweepRows(db, o, now);
    ExpirySweepKeepsHolds(TtlSweep(db, o, now), o, now);
    hide TtlSweep;
  }

  lemma SameSessionSameRow(db: Db, i: nat, s: SessionId)
    requires Keyed(db) && i < |db.holds|
    ensures FindHold(db.holds, s) == Some(i) <==> db.holds[i].session == s
  {
  }

  lemma ReserveUnbacksIff(db: Db, o: OrgId, s: SessionId, now: int, i: nat, deadline: int)
    requires Keyed(db) && Backed(db, i, deadline)
    ensures !Backed(ReserveTx(db, o, s, now).db, i, deadline) <==> Unbacks(db, ReserveFor(o, s, now), i, deadline)
  {
    hide Keyed, Swept, SelectRow, FindHold;
    SameSessionSameRow(db, i, s);
    HoldKeys(db, i);
    SweptHold(db, o, now, i);
    SlotStaysFree(db, o, s, now);
  }

  lemma SettleUnbacksIff(db: Db, o: OrgId, s: SessionId, now: int, i: nat, deadline: int)
    requires Keyed(db) && Backed(db, i, deadline)
    ensures Backed(CaptureTx(db, o, s, now).db, i, deadline)
    ensures !Backed(ReleaseTx(db, o, s, now).db, i, deadline) <==> Unbacks(db, ReleaseFor(o, s, now), i, deadline)
  {
    hide Keyed, ExpirySweep, FindHold;
    SameSessionSameRow(db, i, s);
    HoldKeys(db, i);
    var slot := FindHold(db.holds, s);
    if slot.Some? {
      ReleaseRows(db, slot.value, now);
      ExpirySweepKeepsHolds(ReleaseHold(db, slot.value, now), o, now);
    }
    hide ReleaseHold;
  }

  lemma ExitsKeepHolds(db: Db, r: nat, won: bool, refunded: int, charged: int, now: int)
    requires Keyed(db) && r < |db.lots|
    ensures FreezeTx(db, r, now).db.holds == db.holds
    ensures ResolveTx(db, r, won, now).db.holds == db.holds
    ensures RefundTx(db, r, refunded, charged).db.holds == db.holds
  {
    hide Keyed, ExpirySweep, MatchesUnconsumedProrata;
    LotKeys(db, r);
    ExpirySweepKeepsHolds(ReopenLot(db, r), db.lots[r].org, now);
  }

  lemma GrantsKeepHolds(db: Db, o: OrgId, now: int, days: int, lotId: int, g: GrantInput)
    requires Keyed(db)
    ensures EnsureWalletTx(db, o, now, days, lotId).db.holds == db.holds
    ensures GrantTx(db, g).db.holds == db.holds
  {
    hide Keyed, FindId, FindPayment, FirstConflict, Upper;
  }

  /** For every operation and every backed hold: these are the only steps that unback it, and they always do. */
  lemma StepUnbacksIff(db: Db, step: Step, i: nat, deadline: int)
    requires Keyed(db) && Backed(db, i, deadline)
    ensures !Backed(Apply(db, step), i, deadline) <==> Unbacks(db, step, i, deadline)
  {
    hide Keyed, EnsureWalletTx, GrantTx, ReserveTx, CaptureTx, ReleaseTx, FreezeTx, ResolveTx, RefundTx;
    hide ExpirySweep, Swept, NeedsFreshHold;
    HoldKeys(db, i);
    match step
    case EnsureWallet(o, now, days, lotId) => GrantsKeepHolds(db, o, now, days, lotId, GrantInput(0, 0, 0, "", 0, 0, 0));
    case Grant(g) => GrantsKeepHolds(db, 0, 0, 0, 0, g);
    case ReserveFor(o, s, now) => ReserveUnbacksIff(db, o, s, now, i, deadline);
    case CaptureFor(o, s, now) => SettleUnbacksIff(db, o, s, now, i, deadline);
    case ReleaseFor(o, s, now) => SettleUnbacksIff(db, o, s, now, i, deadline);
    case ReleaseExpired(o, now) => SweptHold(db, o, now, i);
    case ExpireDue(o, now) => ExpirySweepKeepsHolds(db, o, now);
    case FreezeLot(r, now) => if r < |db.lots| { ExitsKeepHolds(db, r, true, 0, 0, now); }
    case ResolveDispute(r, won, now) => if r < |db.lots| { ExitsKeepHolds(db, r, won, 0, 0, now); }
    case RefundLot(r, refunded, charged) => if r < |db.lots| { ExitsKeepHolds(db, r, true, refunded, charged, 0); }
  }

  lemma HarmlessKeeps(db: Db, step: Step, i: nat, from: int, deadline: int)
    requires Backed(db, i, deadline) && deadline <= from + TTL
    requires Harmless(step, db.holds[i].session, from, deadline)
    ensures !Unbacks(db, step, i, deadline)
  {
    hide NeedsFreshHold;
  }

  lemma {:induction false} RunKeepsBacked(db: Db, steps: seq<Step>, i: nat, from: int, deadline: int)
    requires Keyed(db) && Backed(db, i, deadline) && deadline <= from + TTL
    requires forall step | step in steps :: Harmless(step, db.holds[i].session, from, deadline)
    ensures Backed(Run(db, steps), i, deadline) && Run(db, steps).holds[i].session == db.holds[i].session
  {
    hide Keyed, Apply, Harmless, Unbacks;
    RunEvolves(db, steps);
    assert HoldEvolves(db.holds[i], Run(db, steps).holds[i]);
    if steps != [] {
      var n := |steps| - 1;
      RunKeepsBacked(db, steps[..n], i, from, deadline);
      assert steps[n] in steps;
      HarmlessKeeps(Run(db, steps[..n]), steps[n], i, from, deadline);
      StepUnbacksIff(Run(db, steps[..n]), steps[n], i, deadline);
    }
  }

  lemma ReserveBacks(db: Db, o: OrgId, s: SessionId, now: int)
    requires Keyed(db)
    ensures var r := ReserveTx(db, o, s, now);
            r.out.Returned? && r.out.value.ReserveOk? ==>
              var i := r.out.value.hold;
              Backed(r.db, i, now + TTL) && r.db.holds[i].session == s && r.db.holds[i].org == o
              && FindHold(r.db.holds, s) == Some(i)
  {
    hide Swept, SelectRow;
    SlotStaysFree(db, o, s, now);
    ResolvedStay(db, o, now);
    var r := ReserveTx(db, o, s, now);
    if r.out.Returned? && r.out.value.ReserveOk? {
      SameSessionSameRow(r.db, r.out.value.hold, s);
    }
  }

  /**
   * A session admitted at time t keeps its credit through every run that neither releases it, nor sweeps at or past the
   * end of its TTL, nor renews it at a clock before t; capturing it at the end leaves exactly one charge for it.
   */
  lemma HoldSafety(db: Db, o: OrgId, s: SessionId, t: int, steps: seq<Step>, captureAt: int)
    requires Inv(db) && ReserveTx(db, o, s, t).out.Returned? && ReserveTx(db, o, s, t).out.value.ReserveOk?
    requires forall step | step in steps :: Harmless(step, s, t, t + TTL)
    ensures var i := ReserveTx(db, o, s, t).out.value.hold;
            var end := Run(ReserveTx(db, o, s, t).db, steps);
            var capture := CaptureTx(end, o, s, captureAt);
            && Backed(end, i, t + TTL) && end.holds[i].session == s
            && capture.out.Returned? && !capture.out.value.NothingToCapture?
            && Sum(capture.db.log, ConsumesOf(s)) == 1
  {
    hide Inv, Keyed, ReserveTx, CaptureHold, Harmless;
    InvKeyed(db);
    var start := ReserveTx(db, o, s, t).db;
    var i := ReserveTx(db, o, s, t).out.value.hold;
    ReserveKeepsInv(db, o, s, t);
    ReserveBacks(db, o, s, t);
    RunKeepsInv(start, steps);
    RunKeepsBacked(start, steps, i, t, t + TTL);
    var end := Run(start, steps);
    RunEvolves(start, steps);
    SameSessionSameRow(end, i, s);
    assert HoldEvolves(start.holds[i], end.holds[i]);
    HoldKeys(end, i);
    CapturedOnce(end, o, s, i, captureAt);
  }

  lemma CapturedOnce(db: Db, o: OrgId, s: SessionId, i: nat, now: int)
    requires Inv(db) && i < |db.holds| && FindHold(db.holds, s) == Some(i) && o in db.wallets
    requires db.holds[i].org == o && db.holds[i].status != Released
    ensures var capture := CaptureTx(db, o, s, now);
            && capture.out.Returned? && !capture.out.value.NothingToCapture?
            && Sum(capture.db.log, ConsumesOf(s)) == 1
  {
    CaptureTxKeepsInv(db, o, s, now);
    var capture := CaptureTx(db, o, s, now);
    SessionAudit(capture.db, s);
    hide Inv;
    SameSessionSameRow(capture.db, i, s);
  }
}
