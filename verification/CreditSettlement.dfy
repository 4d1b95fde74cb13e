/** Settlement: a completed interview that cleared the threshold consumes its credit, everything else gives it back. */
module CreditSettlement {
  import opened Sums
  import opened LedgerModel
  import opened LedgerInvariant
  import opened LedgerRuns
  import opened LedgerHistory
  import opened LedgerGuarantees
  import opened SweepConfluence
  import opened BillableEvidence
  import opened CreditLedgerStore

  type RealtimeId = int

  datatype Ending = Abandoned | Completed | TimedOut | Failed | Superseded

  datatype BilledOutcome = BilledCaptured | BilledReleased

  /** The counts that justify the decision, written on the session. */
  datatype Trace = Trace(answeredCount: int, outcome: BilledOutcome, requiredCount: int)

  /** A candidate session: its organization, its planned question count, its runtime session and its billing trace. */
  datatype SessionRow = SessionRow(org: OrgId, planned: nat, realtime: Option<RealtimeId>, trace: Option<Trace>)

  /** Where a settlement may fail; whatever fails is logged and swallowed. */
  datatype Fault = NoFault | DatabaseUnreachable | LedgerUnreachable | TraceUnwritable

  /** Whether this ending of this session is charged. */
  ghost predicate Billable(row: SessionRow, evidence: seq<Json>, kind: Ending) {
    kind == Completed && row.realtime.Some? && Justified(row.planned, evidence).billable
  }

  /** The ledger after settling: one capture or one release. */
  ghost function SettledLedger(db: Db, s: SessionId, row: SessionRow, evidence: seq<Json>, kind: Ending, now: int): (r: Db)
    requires Keyed(db)
    ensures Keyed(r)
  {
    if Billable(row, evidence, kind) then CaptureTx(db, row.org, s, now).db else ReleaseTx(db, row.org, s, now).db
  }

  /** The trace after settling; a session whose organization has no wallet makes the ledger throw, and gets none. */
  ghost function SettledTrace(db: Db, row: SessionRow, evidence: seq<Json>, kind: Ending): Option<Trace> {
    if kind != Completed || row.org !in db.wallets then row.trace
    else if row.realtime.None? then Some(Trace(0, BilledReleased, EvaluateBillableCompletion(row.planned, []).requiredCount))
    else
      var d := Justified(row.planned, evidence);
      Some(Trace(d.answeredCount, if d.billable then BilledCaptured else BilledReleased, d.requiredCount))
  }

  class Settlement {
    const ledger: CreditLedger
    const enabled: bool
    var sessions: map<SessionId, SessionRow>

    constructor (ledger: CreditLedger, enabled: bool, sessions: map<SessionId, SessionRow>)
      ensures this.ledger == ledger && this.enabled == enabled && this.sessions == sessions
    {
      this.ledger := ledger;
      this.enabled := enabled;
      this.sessions := sessions;
    }

    /** Writes the trace; it is reached only when the ledger call before it did not throw. */
    method RecordBilledCounts(s: SessionId, trace: Trace)
      requires s in sessions
      modifies this`sessions
      ensures sessions == old(sessions)[s := old(sessions)[s].(trace := Some(trace))]
    {
      sessions := sessions[s := sessions[s].(trace := Some(trace))];
    }

    /**
     * Never throws. With billing off, for an unknown session, or when the database or the ledger cannot be reached it
     * does nothing at all; a lost trace never undoes the capture or the release before it.
     */
    method SettleCandidateSessionCredit(s: SessionId, kind: Ending, now: int, evidence: seq<Json>, fault: Fault)
      requires ledger.Valid()
      modifies this`sessions, ledger
      ensures ledger.Valid() && Keyed(old(ledger.Snapshot()))
      ensures !enabled || s !in old(sessions) || fault.DatabaseUnreachable? || fault.LedgerUnreachable? ==>
                ledger.Snapshot() == old(ledger.Snapshot()) && sessions == old(sessions)
      ensures enabled && s in old(sessions) && (fault.NoFault? || fault.TraceUnwritable?) ==>
                && ledger.Snapshot() == SettledLedger(old(ledger.Snapshot()), s, old(sessions)[s], evidence, kind, now)
                && sessions == if fault.TraceUnwritable? then old(sessions) else
                                 old(sessions)[s := old(sessions)[s].(
                                   trace := SettledTrace(old(ledger.Snapshot()), old(sessions)[s], evidence, kind))]
    {
      hide Inv, Keyed, CaptureHold, ReleaseHold, ExpirySweep, Justified;
      InvKeyed(ledger.Snapshot());
      if !enabled || fault.DatabaseUnreachable? || s !in sessions || fault.LedgerUnreachable? {
        return;
      }
      var row := sessions[s];
      assert sessions[s := row] == sessions;
      if kind != Completed {
        var released := ledger.ReleaseReservationForSession(row.org, s, now);
        return;
      }
      if row.realtime.None? {
        var released := ledger.ReleaseReservationForSession(row.org, s, now);
        if released.Returned? && !fault.TraceUnwritable? {
          var required := EvaluateBillableCompletion(row.planned, []).requiredCount;
          RecordBilledCounts(s, Trace(0, BilledReleased, required));
        }
        return;
      }
      var decision := DecideFromEvents(row.planned, evidence);
      if decision.billable {
        var captured := ledger.CaptureReservationForSession(row.org, s, now);
        if captured.Returned? && !fault.TraceUnwritable? {
          RecordBilledCounts(s, Trace(decision.answeredCount, BilledCaptured, decision.requiredCount));
        }
        return;
      }
      var released := ledger.ReleaseReservationForSession(row.org, s, now);
      if released.Returned? && !fault.TraceUnwritable? {
        RecordBilledCounts(s, Trace(decision.answeredCount, BilledReleased, decision.requiredCount));
      }
    }
  }

  // ---- settling again changes nothing ----

  /** No live hold of the organization stands behind the session. */
  predicate Unheld(db: Db, o: OrgId, s: SessionId) {
    var slot := FindHold(db.holds, s);
    slot.Some? && db.holds[slot.value].org == o ==> db.holds[slot.value].status != Held
  }

  lemma UnheldIsQuiet(db: Db, o: OrgId, s: SessionId, now: int)
    requires Keyed(db) && Unheld(db, o, s)
    ensures CaptureTx(db, o, s, now).db == db && ReleaseTx(db, o, s, now).db == db
  {
  }

  lemma SettledIsUnheld(db: Db, o: OrgId, s: SessionId, now: int)
    requires Inv(db)
    ensures Keyed(db) && Unheld(CaptureTx(db, o, s, now).db, o, s) && Unheld(ReleaseTx(db, o, s, now).db, o, s)
  {
    hide Inv, Keyed, ExpirySweep, FindHold;
    InvKeyed(db);
    var slot := FindHold(db.holds, s);
    if slot.Some? {
      HoldKeys(db, slot.value);
      SameSessionSameRow(CaptureTx(db, o, s, now).db, slot.value, s);
      ReleaseRows(db, slot.value, now);
      ExpirySweepKeepsHolds(ReleaseHold(db, slot.value, now), o, now);
      SameSessionSameRow(ReleaseTx(db, o, s, now).db, slot.value, s);
    }
    hide ReleaseHold;
  }

  /** The step does not admit the session again. */
  predicate NotReadmitting(step: Step, s: SessionId) {
    step.ReserveFor? ==> step.session != s
  }

  /** Rows outlive the step, and only an admission of s writes a live hold for s. */
  lemma StepKeepsUnheld(db: Db, step: Step, p: OrgId, s: SessionId)
    requires Keyed(db) && Unheld(db, p, s) && NotReadmitting(step, s)
    ensures Unheld(Apply(db, step), p, s)
  {
    hide Keyed, EnsureWalletTx, GrantTx, ReserveTx, CaptureTx, ReleaseTx, FreezeTx, ResolveTx, RefundTx, ExpirySweep, Swept;
    match step
    case EnsureWallet(o, now, days, lotId) => GrantsKeepHolds(db, o, now, days, lotId, GrantInput(0, 0, 0, "", 0, 0, 0));
    case Grant(g) => GrantsKeepHolds(db, 0, 0, 0, 0, g);
    case ReserveFor(o, t, now) => ReserveKeepsUnheld(db, o, t, now, p, s);
    case CaptureFor(o, t, now) => SettleKeepsUnheld(db, o, t, now, p, s);
    case ReleaseFor(o, t, now) => SettleKeepsUnheld(db, o, t, now, p, s);
    case ReleaseExpired(o, now) => SweptKeepsUnheld(db, o, now, p, s);
    case ExpireDue(o, now) => ExpirySweepKeepsHolds(db, o, now);
    case FreezeLot(r, now) => if r < |db.lots| { ExitsKeepHolds(db, r, true, 0, 0, now); }
    case ResolveDispute(r, won, now) => if r < |db.lots| { ExitsKeepHolds(db, r, won, 0, 0, now); }
    case RefundLot(r, refunded, charged) => if r < |db.lots| { ExitsKeepHolds(db, r, true, refunded, charged, 0); }
  }

  lemma {:induction false} SameSessionsSameSlot(a: seq<Hold>, b: seq<Hold>, s: SessionId)
    requires |a| == |b| && forall i | 0 <= i < |a| :: a[i].session == b[i].session
    ensures FindHold(a, s) == FindHold(b, s)
  {
    if a != [] {
      SameSessionsSameSlot(a[..|a| - 1], b[..|b| - 1], s);
    }
  }

  lemma SweptKeepsUnheld(db: Db, o: OrgId, now: int, p: OrgId, s: SessionId)
    requires Keyed(db) && Unheld(db, p, s)
    ensures Unheld(Swept(db, o, now), p, s)
    ensures FindHold(Swept(db, o, now).holds, s) == FindHold(db.holds, s)
  {
    hide Keyed, Swept, FindHold;
    ResolvedStay(db, o, now);
    SweepsKeepSessions(db, o, now);
    SweptEvolves(db, o, now);
    SameSessionsSameSlot(db.holds, Swept(db, o, now).holds, s);
  }

  lemma WrittenSlot(a: seq<Hold>, i: nat, h: Hold, s: SessionId)
    requires i <= |a| && h.session != s && (i < |a| ==> a[i].session == h.session)
    ensures i < |a| ==> FindHold(a[i := h], s) == FindHold(a, s)
    ensures i == |a| ==> FindHold(a + [h], s) == FindHold(a, s)
  {
    if i < |a| {
      SameSessionsSameSlot(a, a[i := h], s);
    } else {
      assert (a + [h])[..|a|] == a;
    }
  }

  lemma ReserveKeepsUnheld(db: Db, o: OrgId, t: SessionId, now: int, p: OrgId, s: SessionId)
    requires Keyed(db) && Unheld(db, p, s) && t != s
    ensures Unheld(ReserveTx(db, o, t, now).db, p, s)
  {
    hide Keyed, Swept, SelectRow, FindHold;
    var slot := FindHold(db.holds, t);
    SlotStaysFree(db, o, t, now);
    SweptKeepsUnheld(db, o, now, p, s);
    var swept := Swept(db, o, now);
    var pick := SelectRow(swept, o, now);
    var h := Hold(o, t, if pick.Some? then pick.value else 0, Held, now, now + TTL, None);
    if slot.Some? {
      WrittenSlot(db.holds, slot.value, db.holds[slot.value].(expiresAt := now + TTL), s);
      WrittenSlot(swept.holds, slot.value, h, s);
    } else {
      WrittenSlot(swept.holds, |swept.holds|, h, s);
    }
  }

  lemma SettleKeepsUnheld(db: Db, o: OrgId, t: SessionId, now: int, p: OrgId, s: SessionId)
    requires Keyed(db) && Unheld(db, p, s)
    ensures Unheld(CaptureTx(db, o, t, now).db, p, s) && Unheld(ReleaseTx(db, o, t, now).db, p, s)
  {
    hide Keyed, ExpirySweep, FindHold;
    var slot := FindHold(db.holds, t);
    if slot.Some? {
      var h := db.holds[slot.value];
      SameSessionsSameSlot(db.holds, db.holds[slot.value := h.(status := Captured, resolvedAt := Some(now))], s);
      SameSessionsSameSlot(db.holds, db.holds[slot.value := ReleasedHold(h, now)], s);
      ReleaseRows(db, slot.value, now);
      ExpirySweepKeepsHolds(ReleaseHold(db, slot.value, now), o, now);
    }
    hide ReleaseHold;
  }

  lemma {:induction false} RunKeepsUnheld(db: Db, steps: seq<Step>, p: OrgId, s: SessionId)
    requires Keyed(db) && Unheld(db, p, s)
    requires forall step | step in steps :: NotReadmitting(step, s)
    ensures Unheld(Run(db, steps), p, s)
  {
    hide Keyed, Apply, Unheld, NotReadmitting;
    if steps != [] {
      var n := |steps| - 1;
      RunKeepsUnheld(db, steps[..n], p, s);
      assert steps[n] in steps;
      StepKeepsUnheld(Run(db, steps[..n]), steps[n], p, s);
    }
  }

  /**
   * Settling a session again, at any later clock and whatever else the ledger did meanwhile short of admitting
   * the session again, changes nothing in the ledger, whatever ending or evidence the second call brings.
   */
  lemma SettlingAgainChangesNothing(
    db: Db, s: SessionId, row: SessionRow, evidence: seq<Json>, kind: Ending, now: int,
    steps: seq<Step>, evidence': seq<Json>, kind': Ending, later: int)
    requires Inv(db)
    requires forall step | step in steps :: NotReadmitting(step, s)
    ensures Keyed(db)
    ensures var end := Run(SettledLedger(db, s, row, evidence, kind, now), steps);
            SettledLedger(end, s, row, evidence', kind', later) == end
  {
    hide Inv, Keyed, CaptureTx, ReleaseTx, Unheld, NotReadmitting, Billable;
    InvKeyed(db);
    SettledIsUnheld(db, row.org, s, now);
    RunKeepsUnheld(SettledLedger(db, s, row, evidence, kind, now), steps, row.org, s);
    UnheldIsQuiet(Run(SettledLedger(db, s, row, evidence, kind, now), steps), row.org, s, later);
  }

  /**
   * The trace of a settlement. One is written exactly for a completed interview of an organization with a wallet; it says
   * captured exactly if the interview is billable, and otherwise released; its counts are the answers found, none without
   * a runtime session, and the least number of answers the plan asks for. The ledger is captured or released likewise.
   */
  lemma TraceMeans(db: Db, s: SessionId, row: SessionRow, evidence: seq<Json>, kind: Ending, now: int)
    requires Keyed(db)
    ensures var trace := SettledTrace(db, row, evidence, kind);
            && (kind != Completed || row.org !in db.wallets ==> trace == row.trace)
            && (kind == Completed && row.org in db.wallets ==>
                  && trace.Some?
                  && (trace.value.outcome == BilledCaptured <==> Billable(row, evidence, kind))
                  && (trace.value.outcome == BilledReleased <==> !Billable(row, evidence, kind))
                  && trace.value.answeredCount == (if row.realtime.Some? && row.planned > 0 then |Answered(evidence)| else 0)
                  && (row.planned > 0 ==>
                        && Enough(trace.value.requiredCount, row.planned)
                        && forall n: int | Enough(n, row.planned) :: trace.value.requiredCount <= n))
    ensures SettledLedger(db, s, row, evidence, kind, now) ==
            if kind == Completed && row.realtime.Some? && row.planned > 0 && Enough(|Answered(evidence)|, row.planned)
            then CaptureTx(db, row.org, s, now).db
            else ReleaseTx(db, row.org, s, now).db
  {
    hide Keyed, CaptureTx, ReleaseTx, Answered;
    BilledIffEnough(row.planned, evidence);
    RequiredIsJustified(row.planned, evidence);
  }

  lemma RequiredIsJustified(planned: int, evidence: seq<Json>)
    ensures EvaluateBillableCompletion(planned, []).requiredCount == Justified(planned, evidence).requiredCount
  {
  }

  /** A captured trace is a charge exactly when a live or captured hold of the organization stood behind the session. */
  lemma CapturedTraceIsChargeIff(db: Db, s: SessionId, row: SessionRow, evidence: seq<Json>, now: int)
    requires Inv(db) && row.org in db.wallets && Billable(row, evidence, Completed)
    ensures Keyed(db)
    ensures SettledTrace(db, row, evidence, Completed).Some?
            && SettledTrace(db, row, evidence, Completed).value.outcome == BilledCaptured
    ensures var slot := FindHold(db.holds, s);
            Sum(SettledLedger(db, s, row, evidence, Completed, now).log, ConsumesOf(s)) == 1 <==>
            slot.Some? && (db.holds[slot.value].status == Captured
                           || (db.holds[slot.value].org == row.org && db.holds[slot.value].status == Held))
  {
    CaptureTxKeepsInv(db, row.org, s, now);
    var end := CaptureTx(db, row.org, s, now).db;
    SessionAudit(end, s);
    hide Inv;
    var slot := FindHold(db.holds, s);
    if slot.Some? {
      SameSessionSameRow(end, slot.value, s);
    } else {
      assert end == db;
    }
  }

  // ---- a run that ends with a captured trace and no charge ----

  /** A free credit is held for session 9 and swept back when its hold lapses. */
  const SWEPT_AWAY := [EnsureWallet(1, 0, FIRST_FIVE_EXPIRY_DAYS, 1), ReserveFor(1, 9, 0), ReleaseExpired(1, TTL)]

  const ROW := SessionRow(1, 3, Some(0), None)

  function AnsweredEvent(q: string): Json {
    JsonRecord(map["question_id" := JsonString(q), "completion_reason" := JsonString("answered")])
  }

  const EVIDENCE := [AnsweredEvent("a"), AnsweredEvent("b"), AnsweredEvent("c")]

  lemma EventSays(q: string)
    requires q != ""
    ensures QuestionOf(AnsweredEvent(q)) == q && VerdictOf(AnsweredEvent(q)) == "answered"
  {
  }

  lemma EvidenceBills()
    ensures Billable(ROW, EVIDENCE, Completed)
  {
    EventSays("a");
    EventSays("b");
    EventSays("c");
    hide QuestionOf, VerdictOf;
    var events := EVIDENCE;
    forall q ensures q in Answered(events) <==> q in {"a", "b", "c"} {
      AnsweredMeans(events, q);
      LastOfThree(q);
    }
    assert Answered(events) == {"a", "b", "c"};
    assert "a" != "b" && "a" != "c" && "b" != "c";
    assert |{"a", "b", "c"}| == 3;
  }

  lemma LastOfThree(q: string)
    ensures LastAbout(EVIDENCE, q) ==
            if q == "c" then Some(EVIDENCE[2]) else if q == "b" then Some(EVIDENCE[1])
            else if q == "a" then Some(EVIDENCE[0]) else None
  {
    EventSays("a");
    EventSays("b");
    EventSays("c");
    hide QuestionOf, VerdictOf;
    assert EVIDENCE[..2] == [EVIDENCE[0], EVIDENCE[1]] && EVIDENCE[..2][..1] == [EVIDENCE[0]];
    assert EVIDENCE[..2][..1][..0] == [];
    assert LastAbout([], q) == None;
    OneMoreEvent([], EVIDENCE[0], q);
    OneMoreEvent([EVIDENCE[0]], EVIDENCE[1], q);
    OneMoreEvent([EVIDENCE[0], EVIDENCE[1]], EVIDENCE[2], q);
    assert [] + [EVIDENCE[0]] == [EVIDENCE[0]] && [EVIDENCE[0]] + [EVIDENCE[1]] == [EVIDENCE[0], EVIDENCE[1]];
    assert [EVIDENCE[0], EVIDENCE[1]] + [EVIDENCE[2]] == EVIDENCE;
  }

  lemma OpenedHolds(db: Db)
    requires Keyed(db) && db.lots == [FirstFiveRow(1, 0, FIRST_FIVE_EXPIRY_DAYS, 1)] && db.holds == [] && 1 in db.wallets
    ensures Apply(db, ReserveFor(1, 9, 0)).holds == [Hold(1, 9, 0, Held, 0, TTL, None)]
    ensures 1 in Apply(db, ReserveFor(1, 9, 0)).wallets
  {
    hide Keyed, SelectRow, StaleOn;
    TtlSweepRows(db, 1, 0);
    var swept := Swept(db, 1, 0);
    ExpirySweepRows(TtlSweep(db, 1, 0), 1, 0);
    hide TtlSweep, ExpirySweep;
    assert swept.lots[0].lot == FirstFiveRow(1, 0, FIRST_FIVE_EXPIRY_DAYS, 1).lot by { NoneStale(db); }
    assert CanServe(swept.lots[0], 1, 0);
    SelectRowIsBest(swept, 1, 0);
    SlotStaysFree(db, 1, 9, 0);
  }

  lemma NoneStale(db: Db)
    requires db.holds == []
    ensures forall q: nat :: StaleOn(db.holds, 1, 0, q) == 0
  {
  }

  lemma SweptAway()
    ensures Keyed(EMPTY_DB) && Inv(Run(EMPTY_DB, SWEPT_AWAY)) && 1 in Run(EMPTY_DB, SWEPT_AWAY).wallets
    ensures |Run(EMPTY_DB, SWEPT_AWAY).holds| == 1
    ensures Run(EMPTY_DB, SWEPT_AWAY).holds[0] == Hold(1, 9, 0, Released, 0, TTL, Some(TTL))
  {
    hide Inv;
    EmptyIsOk();
    InvKeyed(EMPTY_DB);
    RunKeepsInv(EMPTY_DB, SWEPT_AWAY);
    assert SWEPT_AWAY[..1] == [] + [SWEPT_AWAY[0]] && SWEPT_AWAY[..2] == SWEPT_AWAY[..1] + [SWEPT_AWAY[1]];
    assert SWEPT_AWAY == SWEPT_AWAY[..2] + [SWEPT_AWAY[2]];
    RunOneMore(EMPTY_DB, [], SWEPT_AWAY[0]);
    RunOneMore(EMPTY_DB, SWEPT_AWAY[..1], SWEPT_AWAY[1]);
    RunOneMore(EMPTY_DB, SWEPT_AWAY[..2], SWEPT_AWAY[2]);
    var first := Run(EMPTY_DB, SWEPT_AWAY[..1]);
    assert first.lots == [FirstFiveRow(1, 0, FIRST_FIVE_EXPIRY_DAYS, 1)] && first.holds == [] && 1 in first.wallets;
    hide Run, Apply, Keyed;
    OpenedHolds(first);
    HeldIsSweptAway(Apply(first, SWEPT_AWAY[1]));
  }

  lemma HeldIsSweptAway(db: Db)
    requires Keyed(db) && db.holds == [Hold(1, 9, 0, Held, 0, TTL, None)] && 1 in db.wallets
    ensures 1 in Apply(db, ReleaseExpired(1, TTL)).wallets
    ensures Apply(db, ReleaseExpired(1, TTL)).holds == [Hold(1, 9, 0, Released, 0, TTL, Some(TTL))]
  {
    hide Keyed, StaleOn;
    TtlSweepRows(db, 1, TTL);
    ExpirySweepRows(TtlSweep(db, 1, TTL), 1, TTL);
    SweptEvolves(db, 1, TTL);
    hide TtlSweep, ExpirySweep;
  }

  /** After that run a fully answered interview is traced as captured, and nobody was charged for it. */
  lemma CapturedTraceWithoutCharge()
    ensures Keyed(EMPTY_DB)
    ensures var db := Run(EMPTY_DB, SWEPT_AWAY);
            && SettledTrace(db, ROW, EVIDENCE, Completed).Some?
            && SettledTrace(db, ROW, EVIDENCE, Completed).value.outcome == BilledCaptured
            && Sum(SettledLedger(db, 9, ROW, EVIDENCE, Completed, TTL).log, ConsumesOf(9)) == 0
  {
    hide Inv, Run, CaptureTx, Billable, Keyed, Answered;
    SweptAway();
    EvidenceBills();
    var db := Run(EMPTY_DB, SWEPT_AWAY);
    CapturedTraceIsChargeIff(db, 9, ROW, EVIDENCE, TTL);
    CaptureTxKeepsInv(db, 1, 9, TTL);
    SessionAudit(CaptureTx(db, 1, 9, TTL).db, 9);
  }

  /**
   * From admission to settlement: a session admitted at t, after any run in its window that does not release it, is
   * charged exactly once if it ends billable. Otherwise settling adds no charge, and a hold that was still live is
   * given back.
   */
  lemma AdmittedSessionIsSettledOnce(
    db: Db, s: SessionId, t: int, steps: seq<Step>, row: SessionRow, evidence: seq<Json>, kind: Ending, now: int)
    requires Inv(db) && ReserveTx(db, row.org, s, t).out.Returned? && ReserveTx(db, row.org, s, t).out.value.ReserveOk?
    requires forall step | step in steps :: Harmless(step, s, t, t + TTL)
    ensures Keyed(db)
    ensures var mid := Run(ReserveTx(db, row.org, s, t).db, steps);
            var end := SettledLedger(mid, s, row, evidence, kind, now);
            && (Billable(row, evidence, kind) ==> Sum(end.log, ConsumesOf(s)) == 1)
            && (!Billable(row, evidence, kind) ==>
                  Sum(end.log, ConsumesOf(s)) == Sum(mid.log, ConsumesOf(s))
                  && (Sum(mid.log, ConsumesOf(s)) == 0 ==> Sum(end.log, NetReservesOf(s)) == 0))
  {
    hide Inv, Keyed, ReserveTx, CaptureTx, ReleaseTx, Harmless, Run;
    InvKeyed(db);
    HoldSafety(db, row.org, s, t, steps, now);
    ReserveKeepsInv(db, row.org, s, t);
    ReserveBacks(db, row.org, s, t);
    var start := ReserveTx(db, row.org, s, t).db;
    RunKeepsInv(start, steps);
    var mid := Run(start, steps);
    RunEvolves(start, steps);
    var i := ReserveTx(db, row.org, s, t).out.value.hold;
    assert HoldEvolves(start.holds[i], mid.holds[i]);
    SameSessionSameRow(mid, i, s);
    HoldKeys(mid, i);
    ReleasedAudit(mid, row.org, s, i, now);
  }

  lemma ReleasedAudit(db: Db, o: OrgId, s: SessionId, i: nat, now: int)
    requires Inv(db) && i < |db.holds| && FindHold(db.holds, s) == Some(i) && o in db.wallets
    requires db.holds[i].org == o && db.holds[i].status != Released
    ensures Keyed(db)
    ensures var end := ReleaseTx(db, o, s, now).db;
            && Sum(end.log, ConsumesOf(s)) == Sum(db.log, ConsumesOf(s))
            && (Sum(db.log, ConsumesOf(s)) == 0 ==> Sum(end.log, NetReservesOf(s)) == 0)
  {
    hide Inv, Keyed, ExpirySweep, FindHold;
    ReleaseTxKeepsInv(db, o, s, now);
    SessionAudit(db, s);
    var end := ReleaseTx(db, o, s, now).db;
    SessionAudit(end, s);
    ReleaseRows(db, i, now);
    ExpirySweepKeepsHolds(ReleaseHold(db, i, now), o, now);
    SameSessionSameRow(end, i, s);
    hide ReleaseHold;
  }
}
