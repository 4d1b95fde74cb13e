/** Money in and money out: exactly-once purchases, the currency lock, and refund and dispute events under interleaving. */
module LedgerExits {
  import opened Sums
  import opened CreditLots
  import opened LedgerModel
  import opened LedgerInvariant
  import opened LedgerRuns
  import opened LedgerHistory
  import opened LedgerGuarantees

  // ---- locating a lot outside the lock ----

  lemma PaymentNamesOneRow(db: Db, p: PaymentId, r: nat)
    requires Keyed(db) && r < |db.lots| && db.lots[r].payment == Some(p)
    ensures FindPayment(db.lots, p) == Some(r)
  {
  }

  /** A lot located before the lock is still the payment's only lot, and still the same organization's, under it. */
  lemma LocatedRowStays(db: Db, p: PaymentId, steps: seq<Step>)
    requires Keyed(db) && FindPayment(db.lots, p).Some?
    ensures var r := FindPayment(db.lots, p);
            var end := Run(db, steps);
            && FindPayment(end.lots, p) == r
            && RowEvolves(db.lots[r.value], end.lots[r.value])
  {
    hide Keyed;
    var r := FindPayment(db.lots, p).value;
    RunEvolves(db, steps);
    PaymentNamesOneRow(Run(db, steps), p, r);
  }

  // ---- refunds and disputes ----

  /** Duplicate deliveries in any run: at most one refund per lot, freezes and releases alternating, nothing else. */
  lemma ExitsStayOrdered(db: Db, steps: seq<Step>, r: nat)
    requires Inv(db) && r < |Run(db, steps).lots|
    ensures var end := Run(db, steps);
            && 0 <= Sum(end.log, RefundsOn(r)) <= 1
            && (Sum(end.log, RefundsOn(r)) == 1 ==> end.lots[r].lot.status == Revoked)
            && (end.lots[r].lot.status == Frozen ==> Sum(end.log, NetFreezesOn(r)) == 1)
            && (!Exiting(end.lots[r].lot.status) ==> Sum(end.log, NetFreezesOn(r)) == 0)
            && forall n | 0 <= n <= |end.log| :: 0 <= SumTo(end.log, n, NetFreezesOn(r)) <= 1
  {
    RunKeepsInv(db, steps);
    hide Keyed, LogKeyed, WalletsOk, SessionsOk, TallyOk, PaidOk, Run;
    assert EntriesOk(Run(db, steps).log, r, Run(db, steps).lots[r].lot);
  }

  /** Refusals and replays write nothing. */
  lemma OnlyAppliedExitsWrite(db: Db, r: nat, won: bool, refunded: int, charged: int, now: int)
    requires Keyed(db) && r < |db.lots|
    ensures !FreezeTx(db, r, now).out.value.Applied? ==> FreezeTx(db, r, now).db == db
    ensures !ResolveTx(db, r, won, now).out.value.Applied? ==> ResolveTx(db, r, won, now).db == db
    ensures !RefundTx(db, r, refunded, charged).out.value.Applied? ==> RefundTx(db, r, refunded, charged).db == db
  {
    hide Keyed, ExpirySweep, MatchesUnconsumedProrata, CloseLot, ReopenLot;
  }

  /** Once a lot is exhausted, expired or revoked, every later exit event on it leaves the state as it is. */
  lemma ClosedLotsIgnoreExits(db: Db, steps: seq<Step>, r: nat, won: bool, refunded: int, charged: int, now: int)
    requires Keyed(db) && r < |db.lots| && Final(db.lots[r].lot.status)
    ensures var end := Run(db, steps);
            && r < |end.lots| && FreezeTx(end, r, now).db == end && ResolveTx(end, r, won, now).db == end
            && RefundTx(end, r, refunded, charged).db == end
            && end.lots[r].lot.status == db.lots[r].lot.status
  {
    hide Keyed, ExpirySweep, MatchesUnconsumedProrata, CloseLot, ReopenLot, Run;
    RunEvolves(db, steps);
    assert RowEvolves(db.lots[r], Run(db, steps).lots[r]);
  }

  /** An applied refund or freeze takes exactly the unheld credits of the lot out of the wallet, and never below zero. */
  lemma ExitMovesAvailable(db: Db, r: nat, refunded: int, charged: int, now: int)
    requires Inv(db) && r < |db.lots|
    ensures var o := db.lots[r].org;
            var lot := db.lots[r].lot;
            var frozen, refund := FreezeTx(db, r, now), RefundTx(db, r, refunded, charged);
            && o in db.wallets && o in frozen.db.wallets && o in refund.db.wallets
            && (frozen.out.value.Applied? ==>
                  frozen.db.wallets[o].available == db.wallets[o].available - AvailableInLot(lot)
                  && frozen.db.wallets[o].available >= 0
                  && frozen.db.wallets[o].reserved == db.wallets[o].reserved)
            && (refund.out.value.Applied? ==>
                  refund.db.wallets[o].available == db.wallets[o].available - AvailableInLot(lot)
                  && refund.db.wallets[o].available >= 0
                  && refund.db.wallets[o].reserved == db.wallets[o].reserved)
  {
    hide Inv, Keyed, MatchesUnconsumedProrata;
    FreezeKeepsInv(db, r, now);
    RefundKeepsInv(db, r, refunded, charged);
    var o := db.lots[r].org;
    LotKeys(db, r);
    CountersNonnegative(FreezeTx(db, r, now).db, o);
    CountersNonnegative(RefundTx(db, r, refunded, charged).db, o);
  }

  // ---- purchases ----

  /**
   * A wallet seen before the lock is still there under it, so the unlocked check only ever skips a transaction that
   * would change nothing.
   */
  lemma SeenWalletStays(db: Db, steps: seq<Step>, o: OrgId, now: int, days: int, lotId: int)
    requires Keyed(db) && o in db.wallets
    ensures EnsureWalletTx(Run(db, steps), o, now, days, lotId) == Tx(Run(db, steps), Returned(()))
  {
    RunEvolves(db, steps);
  }

  /** A purchase is granted exactly when no paid lot and no lock of the wallet disagrees with its currency. */
  lemma GrantIffCurrencyAgrees(db: Db, g: GrantInput)
    requires Inv(db) && ValidAmounts(g) && g.org in db.wallets
    requires FindPayment(db.lots, g.payment).None? && FindId(db.lots, g.lotId).None?
    ensures GrantTx(db, g).out == Returned(Granted(|db.lots|)) <==>
            && (db.wallets[g.org].currency.Some? ==> db.wallets[g.org].currency.value == Upper(g.currency))
            && (forall l | l in db.lots && l.org == g.org && l.lot.kind == Paid :: l.currency == Upper(g.currency))
    ensures GrantTx(db, g).out != Returned(Granted(|db.lots|)) ==>
              GrantTx(db, g).db == db && GrantTx(db, g).out.Returned? && GrantTx(db, g).out.value.CurrencyMismatch?
  {
    hide Keyed, LogKeyed, WalletsOk, SessionsOk, TallyOk, EntriesOk, Upper;
    if db.wallets[g.org].currency.Some? {
      forall l | l in db.lots && l.org == g.org && l.lot.kind == Paid
        ensures l.currency == db.wallets[g.org].currency.value
      {
        var r :| 0 <= r < |db.lots| && db.lots[r] == l;
        assert PaidOk(db.wallets, db.lots[r]);
      }
    }
  }

  /** Whatever runs after a grant, a replay changes nothing: its owner is told so, anyone else fails. */
  lemma GrantedExactlyOnce(db: Db, g: GrantInput, steps: seq<Step>, replay: GrantInput)
    requires Inv(db) && GrantTx(db, g).out == Returned(Granted(|db.lots|))
    requires replay.payment == g.payment && ValidAmounts(replay)
    ensures var r := |db.lots|;
            var end := Run(GrantTx(db, g).db, steps);
            && FindPayment(end.lots, g.payment) == Some(r) && end.lots[r].org == g.org
            && Sum(end.log, PurchasesOn(r)) == 1
            && GrantTx(end, replay).db == end
            && (replay.org == g.org ==> GrantTx(end, replay).out == Returned(AlreadyGranted))
            && (replay.org != g.org ==> GrantTx(end, replay).out.Thrown?)
  {
    var start := GrantTx(db, g).db;
    var r := |db.lots|;
    GrantKeepsInv(db, g);
    RunKeepsInv(start, steps);
    GrantAddsRow(db, g);
    hide Keyed, GrantTx, Run, LogKeyed, WalletsOk, SessionsOk, TallyOk, PaidOk;
    InvKeyed(start);
    PaymentNamesOneRow(start, g.payment, r);
    LocatedRowStays(start, g.payment, steps);
    var end := Run(start, steps);
    assert EntriesOk(end.log, r, end.lots[r].lot);
    RunEvolves(start, steps);
    LotKeys(end, r);
    ReplayOutcome(end, replay, r);
  }

  lemma GrantAddsRow(db: Db, g: GrantInput)
    requires Keyed(db) && GrantTx(db, g).out == Returned(Granted(|db.lots|))
    ensures GrantTx(db, g).db.lots == db.lots + [PaidRow(g)]
    ensures g.org in GrantTx(db, g).db.wallets && GrantTx(db, g).db.wallets[g.org].currency == Some(Upper(g.currency))
    ensures GrantTx(db, g).db.wallets[g.org].available == db.wallets[g.org].available + g.credits
  {
    hide Keyed, FindId, FindPayment, FirstConflict, Upper;
  }

  lemma ReplayOutcome(db: Db, g: GrantInput, r: nat)
    requires Keyed(db) && FindPayment(db.lots, g.payment) == Some(r) && ValidAmounts(g) && db.lots[r].org in db.wallets
    ensures GrantTx(db, g).db == db
    ensures g.org == db.lots[r].org ==> GrantTx(db, g).out == Returned(AlreadyGranted)
    ensures g.org != db.lots[r].org ==> GrantTx(db, g).out.Thrown?
  {
  }

  /** A locked currency never changes, and every paid lot the organization ever has carries it. */
  lemma CurrencyLocked(db: Db, steps: seq<Step>, o: OrgId)
    requires Inv(db) && o in db.wallets && db.wallets[o].currency.Some?
    ensures var end := Run(db, steps);
            && o in end.wallets && end.wallets[o].currency == db.wallets[o].currency
            && forall r: nat | r < |end.lots| && end.lots[r].org == o && end.lots[r].lot.kind == Paid ::
                 end.lots[r].currency == db.wallets[o].currency.value
  {
    RunKeepsInv(db, steps);
    hide Keyed, LogKeyed, WalletsOk, SessionsOk, TallyOk, EntriesOk, Run;
    RunEvolves(db, steps);
    var end := Run(db, steps);
    forall r: nat | r < |end.lots| && end.lots[r].org == o && end.lots[r].lot.kind == Paid
      ensures end.lots[r].currency == db.wallets[o].currency.value
    {
      assert PaidOk(end.wallets, end.lots[r]);
    }
  }

  /** Every grant locks its wallet to the purchase's currency, also a wallet that was not locked before. */
  lemma GrantLocksCurrency(db: Db, g: GrantInput, steps: seq<Step>)
    requires Inv(db) && GrantTx(db, g).out == Returned(Granted(|db.lots|))
    ensures var end := Run(GrantTx(db, g).db, steps);
            && g.org in end.wallets && end.wallets[g.org].currency == Some(Upper(g.currency))
            && forall r: nat | r < |end.lots| && end.lots[r].org == g.org && end.lots[r].lot.kind == Paid ::
                 end.lots[r].currency == Upper(g.currency)
  {
    hide Inv, Keyed, GrantTx;
    InvKeyed(db);
    GrantKeepsInv(db, g);
    GrantAddsRow(db, g);
    CurrencyLocked(GrantTx(db, g).db, steps, g.org);
  }
}
