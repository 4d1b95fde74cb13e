/**
 * Admission with prepaid credits: the session row and the ledger reservation are separate commits. Any call in between
 * may fail, the process may crash, and other callers of the ledger commit whatever they like meanwhile.
 */
module BillingAdmission {
  import opened Sums
  import opened LedgerModel
  import opened LedgerInvariant
  import opened LedgerRuns
  import opened LedgerHistory
  import opened LedgerGuarantees
  import opened LedgerOutcomes
  import opened CreditLedgerStore

  /** The columns of a session that its caller writes. */
  type SessionData = int

  /**
   * What goes wrong; any combination may. reserveFails: the reserve fails and nothing of it commits. replyLost: it
   * commits, and the caller sees a failure all the same.
   */
  datatype Faults = Faults(
    crashAfterWrite: bool,
    reserveFails: bool,
    replyLost: bool,
    crashAfterReserve: bool,
    deleteFails: bool,
    updateFails: bool)

  const NO_FAULTS := Faults(false, false, false, false, false, false)

  /** What other callers commit: before the reserve, between its wallet check and its lock, and after it. */
  datatype Meanwhile = Meanwhile(beforeReserve: seq<Step>, beforeLock: seq<Step>, afterReserve: seq<Step>)

  /** What the caller sees; a crash returns nothing to anyone. */
  datatype Admission = Admitted | LimitReached | Raised | Crashed

  /** A captured or live hold of this organization stands behind the session, live until the deadline at least. */
  ghost predicate CreditBehind(db: Db, o: OrgId, s: SessionId, deadline: int) {
    var slot := FindHold(db.holds, s);
    slot.Some? && db.holds[slot.value].org == o && Backed(db, slot.value, deadline)
  }

  /** The ledger right after the reserve, and its answer: the wallet is opened first, in a transaction of its own. */
  function ReserveCommit(db: Db, o: OrgId, s: SessionId, now: int, firstFiveId: int, others: Meanwhile)
    : (r: Tx<ReserveOutcome>)
    requires Keyed(db)
    ensures Keyed(r.db)
  {
    var ready := EnsureWalletTx(Run(db, others.beforeReserve), o, now, FIRST_FIVE_EXPIRY_DAYS, firstFiveId);
    if ready.out.Thrown? then Tx(ready.db, Thrown(ready.out.error))
    else ReserveTx(Run(ready.db, others.beforeLock), o, s, now)
  }

  /** The ledger when the call ends: reserved is where the reserve would leave it. */
  function LedgerAfter(before: Db, reserved: Db, faults: Faults, others: Meanwhile): Db
    requires Keyed(before) && Keyed(reserved)
  {
    Run(if faults.reserveFails then Run(before, others.beforeReserve) else reserved, others.afterReserve)
  }

  predicate IsOk(out: Attempt<ReserveOutcome>) {
    out.Returned? && out.value.ReserveOk?
  }

  /** An ok from the ledger is a credit behind that very session. */
  lemma OkMeansCredit(db: Db, o: OrgId, s: SessionId, now: int, firstFiveId: int, others: Meanwhile)
    requires Keyed(db)
    ensures var r := ReserveCommit(db, o, s, now, firstFiveId, others);
            IsOk(r.out) ==> CreditBehind(r.db, o, s, now + TTL)
  {
    hide Keyed, ReserveTx, EnsureWalletTx, Run;
    var ready := EnsureWalletTx(Run(db, others.beforeReserve), o, now, FIRST_FIVE_EXPIRY_DAYS, firstFiveId);
    ReserveBacks(Run(ready.db, others.beforeLock), o, s, now);
  }

  /**
   * An admission opens the wallet of an organization that has none, so it never fails for want of one, whatever others
   * commit before its lock.
   */
  lemma AdmissionOpensWallet(db: Db, o: OrgId, s: SessionId, now: int, firstFiveId: int, others: Meanwhile)
    requires Keyed(db)
    ensures var r := ReserveCommit(db, o, s, now, firstFiveId, others);
            && r.out != Thrown(MissingCreditWallet)
            && (r.out.Returned? ==> o in r.db.wallets)
  {
    hide Keyed, ReserveTx, Run;
    var before := Run(db, others.beforeReserve);
    var ready := EnsureWalletTx(before, o, now, FIRST_FIVE_EXPIRY_DAYS, firstFiveId);
    if ready.out.Returned? {
      WalletOpened(before, o, now, FIRST_FIVE_EXPIRY_DAYS, firstFiveId);
      hide EnsureWalletTx;
      RunEvolves(ready.db, others.beforeLock);
      ReserveThrowsIff(Run(ready.db, others.beforeLock), o, s, now);
      ReserveEvolves(Run(ready.db, others.beforeLock), o, s, now);
    }
  }

  /** None of the steps releases the session, sweeps at or past its TTL, or renews it at an earlier clock. */
  ghost predicate AllHarmless(steps: seq<Step>, s: SessionId, now: int) {
    forall step | step in steps :: Harmless(step, s, now, now + TTL)
  }

  /** The credit is still behind the session when other callers have had their turn. */
  lemma CreditStays(db: Db, o: OrgId, s: SessionId, now: int, steps: seq<Step>)
    requires Keyed(db) && CreditBehind(db, o, s, now + TTL) && AllHarmless(steps, s, now)
    ensures CreditBehind(Run(db, steps), o, s, now + TTL)
  {
    hide Keyed, Run, Harmless, FindHold;
    var i := FindHold(db.holds, s).value;
    RunKeepsBacked(db, steps, i, now, now + TTL);
    RunEvolves(db, steps);
    assert HoldEvolves(db.holds[i], Run(db, steps).holds[i]);
    SameSessionSameRow(Run(db, steps), i, s);
  }

  class CandidateSessions {
    const ledger: CreditLedger
    var sessions: map<SessionId, SessionData>

    constructor (ledger: CreditLedger)
      ensures this.ledger == ledger && sessions == map[]
    {
      this.ledger := ledger;
      sessions := map[];
    }

    /** Best-effort cleanup: a failed delete is swallowed and leaves the row behind. */
    method DeleteOrphanedSession(s: SessionId, fails: bool)
      modifies this`sessions
      ensures sessions == if fails then old(sessions) else old(sessions) - {s}
    {
      if !fails {
        sessions := sessions - {s};
      }
    }

    /**
     * reserveCredit among other callers. The caller learns nothing when the call failed or its reply was lost; the
     * ledger moved by exactly the reserve, or, when it failed, by the others' commits alone.
     */
    method ReserveCredit(o: OrgId, s: SessionId, now: int, firstFiveId: int, faults: Faults, others: Meanwhile)
      returns (r: Option<Attempt<ReserveOutcome>>)
      requires ledger.Valid()
      modifies ledger
      ensures ledger.Valid() && Keyed(old(ledger.Snapshot()))
      ensures ledger.Snapshot() ==
              if faults.reserveFails then Run(old(ledger.Snapshot()), others.beforeReserve)
              else ReserveCommit(old(ledger.Snapshot()), o, s, now, firstFiveId, others).db
      ensures r == if faults.reserveFails || faults.replyLost then None
                   else Some(ReserveCommit(old(ledger.Snapshot()), o, s, now, firstFiveId, others).out)
    {
      hide Inv, Keyed, EnsureWalletTx, ReserveTx, Run;
      InvKeyed(ledger.Snapshot());
      ledger.CommitAll(others.beforeReserve);
      if faults.reserveFails {
        return None;
      }
      var ready := ledger.EnsureWallet(o, now, FIRST_FIVE_EXPIRY_DAYS, firstFiveId);
      var attempt := Thrown(MissingCreditWallet);
      if ready.Thrown? {
        attempt := Thrown(ready.error);
        ThrownChangesNothing(Run(old(ledger.Snapshot()), others.beforeReserve), o, now, firstFiveId);
      } else {
        ledger.CommitAll(others.beforeLock);
        attempt := ledger.ReserveUnderLock(o, s, now);
      }
      r := if faults.replyLost then None else Some(attempt);
    }

    /**
     * Creates the session, then reserves for the id it was given, and deletes the row again when no credit was taken.
     * An admission always has its row and a reserve committed for it in this call, still good at the end if nobody
     * released it meanwhile. A refusal means there was no credit to be had. Whatever fails, only a failed delete or a
     * crash leaves a row behind, and no row of any other session is touched.
     */
    method CreateCreditBackedCandidateSession(
      o: OrgId, s: SessionId, data: SessionData, now: int, firstFiveId: int, faults: Faults, others: Meanwhile)
      returns (r: Admission)
      requires ledger.Valid()
      modifies this`sessions, ledger
      ensures ledger.Valid() && Keyed(old(ledger.Snapshot()))
      ensures s in old(sessions) ==> r == Raised && sessions == old(sessions) && ledger.Snapshot() == old(ledger.Snapshot())
      ensures s !in old(sessions) && (r == LimitReached || r == Raised) ==>
                sessions == if faults.deleteFails then old(sessions)[s := data] else old(sessions)
      ensures r == Admitted || r == Crashed ==> s !in old(sessions) && sessions == old(sessions)[s := data]
      ensures var c := ReserveCommit(old(ledger.Snapshot()), o, s, now, firstFiveId, others);
              && (r == Admitted ==>
                    IsOk(c.out) && !faults.reserveFails && CreditBehind(c.db, o, s, now + TTL)
                    && (AllHarmless(others.afterReserve, s, now) ==> CreditBehind(ledger.Snapshot(), o, s, now + TTL)))
              && (r == LimitReached ==> c.out == Returned(NoCreditsAvailable) && !faults.reserveFails)
              && (faults == NO_FAULTS && s !in old(sessions) ==>
                    && (r == Admitted <==> IsOk(c.out)) && (r == LimitReached <==> c.out == Returned(NoCreditsAvailable))
                    && (r == Raised <==> c.out.Thrown?))
              && (s !in old(sessions) ==>
                    ledger.Snapshot() == if faults.crashAfterWrite then old(ledger.Snapshot())
                                         else LedgerAfter(old(ledger.Snapshot()), c.db, faults, others))
    {
      hide Inv, Keyed, ReserveCommit, CreditBehind, Run, AllHarmless;
      InvKeyed(ledger.Snapshot());
      OkMeansCredit(ledger.Snapshot(), o, s, now, firstFiveId, others);
      ghost var c := ReserveCommit(ledger.Snapshot(), o, s, now, firstFiveId, others);
      if IsOk(c.out) && AllHarmless(others.afterReserve, s, now) {
        CreditStays(c.db, o, s, now, others.afterReserve);
      }
      if s in sessions {
        return Raised;
      }
      sessions := sessions[s := data];
      assert sessions - {s} == old(sessions);
      if faults.crashAfterWrite {
        return Crashed;
      }
      var reservation := ReserveCredit(o, s, now, firstFiveId, faults, others);
      ledger.CommitAll(others.afterReserve);
      if faults.crashAfterReserve {
        return Crashed;
      }
      if reservation.None? || reservation.value.Thrown? {
        DeleteOrphanedSession(s, faults.deleteFails);
        return Raised;
      }
      if reservation.value.value.ReserveOk? {
        return Admitted;
      }
      DeleteOrphanedSession(s, faults.deleteFails);
      r := LimitReached;
    }

    /**
     * Reserves before it touches the session: the row is only ever written after a reserve committed in this call, and
     * a refusal or a failure leaves every session exactly as it was.
     */
    method ResumeEntitledCandidateSession(
      o: OrgId, s: SessionId, data: SessionData, now: int, firstFiveId: int, faults: Faults, others: Meanwhile)
      returns (r: Admission)
      requires ledger.Valid()
      modifies this`sessions, ledger
      ensures ledger.Valid() && Keyed(old(ledger.Snapshot()))
      ensures r == LimitReached || r == Raised ==> sessions == old(sessions)
      ensures r == Admitted ==> s in old(sessions) && sessions == old(sessions)[s := data]
      ensures sessions == old(sessions) || (s in old(sessions) && sessions == old(sessions)[s := data])
      ensures var c := ReserveCommit(old(ledger.Snapshot()), o, s, now, firstFiveId, others);
              && (r == Admitted ==>
                    IsOk(c.out) && !faults.reserveFails && CreditBehind(c.db, o, s, now + TTL)
                    && (AllHarmless(others.afterReserve, s, now) ==> CreditBehind(ledger.Snapshot(), o, s, now + TTL)))
              && (r == LimitReached ==> c.out == Returned(NoCreditsAvailable) && !faults.reserveFails)
              && (sessions != old(sessions) ==> IsOk(c.out) && !faults.reserveFails)
              && ledger.Snapshot() == LedgerAfter(old(ledger.Snapshot()), c.db, faults, others)
              && (faults == NO_FAULTS && s in old(sessions) ==>
                    && (r == Admitted <==> IsOk(c.out)) && (r == LimitReached <==> c.out == Returned(NoCreditsAvailable))
                    && (r == Raised <==> c.out.Thrown?))
    {
      hide Inv, Keyed, ReserveCommit, CreditBehind, Run, AllHarmless;
      InvKeyed(ledger.Snapshot());
      OkMeansCredit(ledger.Snapshot(), o, s, now, firstFiveId, others);
      ghost var c := ReserveCommit(ledger.Snapshot(), o, s, now, firstFiveId, others);
      if IsOk(c.out) && AllHarmless(others.afterReserve, s, now) {
        CreditStays(c.db, o, s, now, others.afterReserve);
      }
      var reservation := ReserveCredit(o, s, now, firstFiveId, faults, others);
      ledger.CommitAll(others.afterReserve);
      if faults.crashAfterReserve {
        return Crashed;
      }
      if reservation.None? || reservation.value.Thrown? {
        return Raised;
      }
      if !reservation.value.value.ReserveOk? {
        return LimitReached;
      }
      if s !in sessions || faults.updateFails {
        return Raised;
      }
      sessions := sessions[s := data];
      r := if faults.crashAfterWrite then Crashed else Admitted;
    }
  }

  lemma ThrownChangesNothing(db: Db, o: OrgId, now: int, firstFiveId: int)
    requires Keyed(db)
    ensures EnsureWalletTx(db, o, now, FIRST_FIVE_EXPIRY_DAYS, firstFiveId).out.Thrown? ==>
              EnsureWalletTx(db, o, now, FIRST_FIVE_EXPIRY_DAYS, firstFiveId).db == db
  {
  }
}
