/**
 * Whole runs of the ledger: any sequence of transactions, in any interleaving, from any balanced state.
 */
module LedgerRuns {
  import opened Sums
  import opened CreditLots
  import opened LedgerModel
  import opened LedgerInvariant

  // ---- what the two sweeps do, row by row ----

  function ReleasedHold(h: Hold, now: int): Hold {
    h.(status := Released, resolvedAt := Some(now))
  }

  /** Which of the listed hold rows sit on lot r. */
  ghost function OnLot(holds: seq<Hold>, r: nat): nat -> int {
    (i: nat) => if i < |holds| && holds[i].lot == r then 1 else 0
  }

  /** Row i is among the first n listed. */
  ghost predicate Listed(due: seq<nat>, n: nat, i: nat)
    requires n <= |due|
  {
    exists k :: 0 <= k < n && due[k] == i
  }

  ghost predicate LiveHolds(db: Db, due: seq<nat>) {
    && (forall i, j | 0 <= i < j < |due| :: due[i] != due[j])
    && (forall k | 0 <= k < |due| :: due[k] < |db.holds| && db.holds[due[k]].status == Held)
  }

  /** Exactly the listed holds are released. */
  ghost predicate FreedHolds(holds: seq<Hold>, after: seq<Hold>, due: seq<nat>, n: nat, now: int)
    requires n <= |due|
  {
    && |after| == |holds|
    && forall i: nat | i < |holds| :: after[i] == if Listed(due, n, i) then ReleasedHold(holds[i], now) else holds[i]
  }

  function Returning(row: LotRow, credits: int): LotRow {
    row.(lot := row.lot.(reserved := row.lot.reserved - credits))
  }

  /** Every lot gets back exactly the listed holds that sit on it, and nothing else about it changes. */
  ghost predicate FreedLots(lots: seq<LotRow>, holds: seq<Hold>, after: seq<LotRow>, due: seq<nat>, n: nat)
    requires n <= |due|
  {
    && |after| == |lots|
    && forall q: nat | q < |after| :: after[q] == Returning(lots[q], SumTo(due, n, OnLot(holds, q)))
  }

  lemma NextRelease(db: Db, due: seq<nat>, n: nat, now: int)
    requires Keyed(db) && 0 < n <= |due| && forall k | 0 <= k < n :: due[k] < |db.holds|
    ensures ReleaseFirst(db, due, n, now) == ReleaseHold(ReleaseFirst(db, due, n - 1, now), due[n - 1], now)
  {
  }

  lemma OneMoreListed(due: seq<nat>, n: nat, i: nat)
    requires n < |due|
    ensures Listed(due, n + 1, i) <==> Listed(due, n, i) || i == due[n]
  {
  }

  lemma OneMoreReleased(holds: seq<Hold>, before: seq<Hold>, after: seq<Hold>, due: seq<nat>, n: nat, now: int)
    requires n < |due| && FreedHolds(holds, before, due, n, now) && due[n] < |holds| && !Listed(due, n, due[n])
    requires after == before[due[n] := ReleasedHold(before[due[n]], now)]
    ensures FreedHolds(holds, after, due, n + 1, now)
  {
    hide Listed;
    forall i: nat | i < |after|
      ensures after[i] == if Listed(due, n + 1, i) then ReleasedHold(holds[i], now) else holds[i]
    {
      OneMoreListed(due, n, i);
    }
  }

  lemma LiveRows(db: Db, due: seq<nat>)
    requires LiveHolds(db, due)
    ensures (forall i, j | 0 <= i < j < |due| :: due[i] != due[j]) && forall k | 0 <= k < |due| :: due[k] < |db.holds|
  {
  }

  lemma NothingReleased(db: Db, due: seq<nat>, now: int)
    requires Keyed(db)
    ensures FreedHolds(db.holds, ReleaseFirst(db, due, 0, now).holds, due, 0, now)
  {
    hide Keyed;
  }

  lemma ReleasesKeepCount(db: Db, due: seq<nat>, n: nat, now: int)
    requires Keyed(db) && n <= |due| && forall k | 0 <= k < n :: due[k] < |db.holds|
    ensures |ReleaseFirst(db, due, n, now).holds| == |db.holds| && |ReleaseFirst(db, due, n, now).lots| == |db.lots|
  {
    hide Keyed, ReleaseFirst;
  }

  lemma ReleaseStep(db: Db, due: seq<nat>, n: nat, now: int)
    requires Keyed(db) && n < |due| && forall k | 0 <= k < |due| :: due[k] < |db.holds|
    requires FreedHolds(db.holds, ReleaseFirst(db, due, n, now).holds, due, n, now) && !Listed(due, n, due[n])
    ensures FreedHolds(db.holds, ReleaseFirst(db, due, n + 1, now).holds, due, n + 1, now)
  {
    hide *;
    var before := ReleaseFirst(db, due, n, now);
    NextRelease(db, due, n + 1, now);
    ReleasesKeepCount(db, due, n, now);
    ReleaseRows(before, due[n], now);
    OneMoreReleased(db.holds, before.holds, ReleaseFirst(db, due, n + 1, now).holds, due, n, now);
  }

  lemma {:induction false} ReleasesFreeHolds(db: Db, due: seq<nat>, n: nat, now: int)
    requires Keyed(db) && LiveHolds(db, due) && n <= |due|
    ensures FreedHolds(db.holds, ReleaseFirst(db, due, n, now).holds, due, n, now)
  {
    hide *;
    LiveRows(db, due);
    if n == 0 {
      NothingReleased(db, due, now);
    } else {
      ReleasesFreeHolds(db, due, n - 1, now);
      NotListedBefore(due, n - 1);
      ReleaseStep(db, due, n - 1, now);
    }
  }

  lemma HoldKeys(db: Db, i: nat)
    requires Keyed(db) && i < |db.holds|
    ensures db.holds[i].lot < |db.lots| && db.holds[i].org == db.lots[db.holds[i].lot].org && db.holds[i].org in db.wallets
  {
  }

  lemma ReleaseRows(db: Db, i: nat, now: int)
    requires Keyed(db) && i < |db.holds|
    ensures ReleaseHold(db, i, now).lots == db.lots[db.holds[i].lot := Returning(db.lots[db.holds[i].lot], 1)]
    ensures ReleaseHold(db, i, now).holds == db.holds[i := ReleasedHold(db.holds[i], now)]
  {
  }

  lemma OneMoreFreed(lots: seq<LotRow>, holds: seq<Hold>, before: seq<LotRow>, after: seq<LotRow>, due: seq<nat>, n: nat)
    requires n < |due| && due[n] < |holds| && holds[due[n]].lot < |before|
    requires FreedLots(lots, holds, before, due, n)
    requires after == before[holds[due[n]].lot := Returning(before[holds[due[n]].lot], 1)]
    ensures FreedLots(lots, holds, after, due, n + 1)
  {
  }

  lemma {:induction false} ReleasesFreeLots(db: Db, due: seq<nat>, n: nat, now: int)
    requires Keyed(db) && LiveHolds(db, due) && n <= |due|
    ensures FreedLots(db.lots, db.holds, ReleaseFirst(db, due, n, now).lots, due, n)
  {
    hide Keyed, FreedHolds, ReleaseHold, DueHolds;
    if n > 0 {
      var i := due[n - 1];
      var before := ReleaseFirst(db, due, n - 1, now);
      ReleasesFreeLots(db, due, n - 1, now);
      hide FreedLots;
      StillLive(db, due, n - 1, now);
      HoldKeys(db, i);
      ReleaseRows(before, i, now);
      hide LiveHolds;
      OneMoreFreed(db.lots, db.holds, before.lots, ReleaseFirst(db, due, n, now).lots, due, n - 1);
    }
  }

  /** Exactly the listed lots are expired. */
  ghost predicate ExpiredLots(lots: seq<LotRow>, after: seq<LotRow>, due: seq<nat>, n: nat)
    requires n <= |due|
  {
    && |after| == |lots|
    && forall q: nat | q < |lots| ::
         after[q] == if Listed(due, n, q) then lots[q].(lot := lots[q].lot.(status := Expired)) else lots[q]
  }

  ghost predicate OpenLots(lots: seq<LotRow>, due: seq<nat>) {
    && (forall i, j | 0 <= i < j < |due| :: due[i] != due[j])
    && (forall k | 0 <= k < |due| :: due[k] < |lots| && lots[due[k]].lot.status == Active)
  }

  lemma NextExpiry(db: Db, due: seq<nat>, n: nat)
    requires Keyed(db) && 0 < n <= |due| && forall k | 0 <= k < n :: due[k] < |db.lots|
    ensures ExpireFirst(db, due, n) == CloseLot(ExpireFirst(db, due, n - 1), due[n - 1], Expired, Expire)
  {
  }

  lemma OneMoreExpired(lots: seq<LotRow>, before: seq<LotRow>, after: seq<LotRow>, due: seq<nat>, n: nat)
    requires n < |due| && ExpiredLots(lots, before, due, n) && due[n] < |lots| && !Listed(due, n, due[n])
    requires after == before[due[n] := before[due[n]].(lot := before[due[n]].lot.(status := Expired))]
    ensures ExpiredLots(lots, after, due, n + 1)
  {
    hide Listed;
    forall q: nat | q < |lots|
      ensures after[q] == if Listed(due, n + 1, q) then lots[q].(lot := lots[q].lot.(status := Expired)) else lots[q]
    {
      OneMoreListed(due, n, q);
    }
  }

  lemma NotListedBefore(due: seq<nat>, n: nat)
    requires n < |due| && forall i, j | 0 <= i < j < |due| :: due[i] != due[j]
    ensures !Listed(due, n, due[n])
  {
  }

  lemma OpenRows(lots: seq<LotRow>, due: seq<nat>)
    requires OpenLots(lots, due)
    ensures (forall i, j | 0 <= i < j < |due| :: due[i] != due[j]) && forall k | 0 <= k < |due| :: due[k] < |lots|
  {
  }

  lemma NothingExpired(db: Db, due: seq<nat>)
    requires Keyed(db)
    ensures ExpiredLots(db.lots, ExpireFirst(db, due, 0).lots, due, 0)
  {
    hide Keyed;
  }

  lemma ClosedRow(db: Db, r: nat, status: LotStatus, kind: EntryKind)
    requires Keyed(db) && r < |db.lots|
    ensures CloseLot(db, r, status, kind).lots == db.lots[r := db.lots[r].(lot := db.lots[r].lot.(status := status))]
  {
    hide Keyed;
  }

  lemma ExpiriesKeepCount(db: Db, due: seq<nat>, n: nat)
    requires Keyed(db) && n <= |due| && forall k | 0 <= k < n :: due[k] < |db.lots|
    ensures |ExpireFirst(db, due, n).lots| == |db.lots|
  {
    hide Keyed, ExpireFirst;
  }

  lemma ExpiryStep(db: Db, due: seq<nat>, n: nat)
    requires Keyed(db) && n < |due| && forall k | 0 <= k < |due| :: due[k] < |db.lots|
    requires ExpiredLots(db.lots, ExpireFirst(db, due, n).lots, due, n) && !Listed(due, n, due[n])
    ensures ExpiredLots(db.lots, ExpireFirst(db, due, n + 1).lots, due, n + 1)
  {
    hide *;
    var before := ExpireFirst(db, due, n);
    NextExpiry(db, due, n + 1);
    ExpiriesKeepCount(db, due, n);
    ClosedRow(before, due[n], Expired, Expire);
    OneMoreExpired(db.lots, before.lots, ExpireFirst(db, due, n + 1).lots, due, n);
  }

  lemma {:induction false} ExpiriesCloseLots(db: Db, due: seq<nat>, n: nat)
    requires Keyed(db) && OpenLots(db.lots, due) && n <= |due|
    ensures ExpiredLots(db.lots, ExpireFirst(db, due, n).lots, due, n)
  {
    hide *;
    OpenRows(db.lots, due);
    if n == 0 {
      NothingExpired(db, due);
    } else {
      ExpiriesCloseLots(db, due, n - 1);
      NotListedBefore(due, n - 1);
      ExpiryStep(db, due, n - 1);
    }
  }

  // ---- the sweeps keep the books balanced ----

  lemma InvKeyed(db: Db)
    requires Inv(db)
    ensures Keyed(db)
  {
  }

  lemma StillLive(db: Db, due: seq<nat>, n: nat, now: int)
    requires Keyed(db) && LiveHolds(db, due) && n < |due|
    ensures due[n] < |db.holds| && ReleaseFirst(db, due, n, now).holds[due[n]] == db.holds[due[n]]
    ensures db.holds[due[n]].status == Held
  {
    hide Keyed;
    ReleasesFreeHolds(db, due, n, now);
    assert !Listed(due, n, due[n]);
  }

  lemma StillOpen(db: Db, due: seq<nat>, n: nat)
    requires Keyed(db) && OpenLots(db.lots, due) && n < |due|
    ensures due[n] < |db.lots| && ExpireFirst(db, due, n).lots[due[n]] == db.lots[due[n]]
    ensures db.lots[due[n]].lot.status == Active
  {
    hide Keyed;
    ExpiriesCloseLots(db, due, n);
    assert !Listed(due, n, due[n]);
  }

  lemma {:induction false} ReleasesKeepInv(db: Db, due: seq<nat>, n: nat, now: int)
    requires Inv(db) && LiveHolds(db, due) && n <= |due|
    ensures Inv(ReleaseFirst(db, due, n, now))
  {
    hide Inv, Keyed, ReleaseHold;
    InvKeyed(db);
    if n > 0 {
      ReleasesKeepInv(db, due, n - 1, now);
      StillLive(db, due, n - 1, now);
      hide LiveHolds;
      ReleaseKeepsInv(ReleaseFirst(db, due, n - 1, now), due[n - 1], now);
    }
  }

  lemma {:induction false} ExpiriesKeepInv(db: Db, due: seq<nat>, n: nat)
    requires Inv(db) && OpenLots(db.lots, due) && n <= |due|
    ensures Inv(ExpireFirst(db, due, n))
  {
    hide Inv, Keyed, CloseLot;
    InvKeyed(db);
    if n > 0 {
      ExpiriesKeepInv(db, due, n - 1);
      StillOpen(db, due, n - 1);
      hide OpenLots;
      CloseKeepsInv(ExpireFirst(db, due, n - 1), due[n - 1], Expired, Expire);
    }
  }

  lemma TtlSweepKeepsInv(db: Db, o: OrgId, now: int)
    requires Inv(db)
    ensures Inv(TtlSweep(db, o, now))
  {
    var due := DueHolds(db.holds, o, now);
    ReleasesKeepInv(db, due, |due|, now);
  }

  lemma ExpirySweepKeepsInv(db: Db, o: OrgId, now: int)
    requires Inv(db)
    ensures Inv(ExpirySweep(db, o, now))
  {
    var due := DueLots(db.lots, o, now);
    ExpiriesKeepInv(db, due, |due|);
  }

  // ---- the transactions keep the books balanced ----

  lemma EnsureWalletKeepsInv(db: Db, o: OrgId, now: int, days: int, lotId: int)
    requires Inv(db)
    ensures Inv(EnsureWalletTx(db, o, now, days, lotId).db)
  {
    if o !in db.wallets && FindId(db.lots, lotId).None? {
      NewWalletKeepsInv(db, o);
      AddKeepsInv(db.(wallets := db.wallets[o := Wallet(0, 0, None)]), FirstFiveRow(o, now, days, lotId), FreeGrant);
    }
  }

  /** Past the currency gate, every paid lot of the organization carries the purchase's currency. */
  lemma PaidLotsAgree(db: Db, g: GrantInput)
    requires Inv(db) && g.org in db.wallets && CurrencyConflict(db, g).None?
    ensures forall l | l in db.lots && l.org == g.org && l.lot.kind == Paid :: l.currency == Upper(g.currency)
  {
    hide Keyed, LogKeyed, WalletsOk, SessionsOk, TallyOk, EntriesOk, Upper;
    forall l | l in db.lots && l.org == g.org && l.lot.kind == Paid ensures l.currency == Upper(g.currency) {
      var r :| 0 <= r < |db.lots| && db.lots[r] == l;
      assert PaidOk(db.wallets, db.lots[r]);
    }
  }

  function Locked(db: Db, g: GrantInput): Db
    requires g.org in db.wallets
  {
    db.(wallets := db.wallets[g.org := db.wallets[g.org].(currency := Some(Upper(g.currency)))])
  }

  lemma GrantAdds(db: Db, g: GrantInput)
    requires Keyed(db) && GrantTx(db, g).db != db
    ensures g.org in db.wallets && CurrencyConflict(db, g).None?
    ensures Addable(Locked(db, g), PaidRow(g), PackPurchase)
    ensures GrantTx(db, g).db == AddLot(Locked(db, g), PaidRow(g), PackPurchase)
  {
    hide Keyed, FindId, FindPayment, CurrencyConflict, Upper;
  }

  lemma GrantKeepsInv(db: Db, g: GrantInput)
    requires Inv(db)
    ensures Inv(GrantTx(db, g).db)
  {
    hide Inv, Keyed, GrantTx, AddLot, Addable, Upper;
    InvKeyed(db);
    if GrantTx(db, g).db != db {
      GrantAdds(db, g);
      PaidLotsAgree(db, g);
      LockKeepsInv(db, g.org, Upper(g.currency));
      AddKeepsInv(Locked(db, g), PaidRow(g), PackPurchase);
    }
  }

  /** Both sweeps of an admission: balanced books, and every released row still released. */
  lemma SweptKeepsInv(db: Db, o: OrgId, now: int)
    requires Inv(db)
    ensures Keyed(db) && Inv(Swept(db, o, now)) && SameSessions(db, Swept(db, o, now))
    ensures |Swept(db, o, now).holds| == |db.holds|
    ensures forall i: nat | i < |db.holds| && db.holds[i].status != Held :: Swept(db, o, now).holds[i] == db.holds[i]
  {
    var freed := TtlSweep(db, o, now);
    hide Inv, Keyed, SameSessions, ReleaseFirst, ExpireFirst;
    InvKeyed(db);
    TtlSweepKeepsInv(db, o, now);
    ExpirySweepKeepsInv(freed, o, now);
    SweepsKeepSessions(db, o, now);
    ResolvedStay(db, o, now);
  }

  lemma ResolvedStay(db: Db, o: OrgId, now: int)
    requires Keyed(db)
    ensures |Swept(db, o, now).holds| == |db.holds|
    ensures forall i: nat | i < |db.holds| && db.holds[i].status != Held :: Swept(db, o, now).holds[i] == db.holds[i]
  {
    hide Keyed;
    var freed := TtlSweep(db, o, now);
    var due := DueHolds(db.holds, o, now);
    ReleasesFreeHolds(db, due, |due|, now);
    var dueLots := DueLots(freed.lots, o, now);
    ExpiriesKeepHolds(freed, dueLots, |dueLots|);
    hide ReleaseFirst, ExpireFirst;
  }

  lemma FreshHoldKeepsInv(db: Db, o: OrgId, s: SessionId, slot: Option<nat>, now: int)
    requires Inv(db) && o in db.wallets && slot == FindHold(db.holds, s)
    requires slot.Some? ==> db.holds[slot.value].org == o && db.holds[slot.value].status == Released
    ensures Inv(FreshHold(db, o, s, slot, now).db)
  {
    hide Inv, Keyed, Swept, SelectRow, FindHold, PlaceHold, SameSessions;
    InvKeyed(db);
    SweptKeepsInv(db, o, now);
    var swept := Swept(db, o, now);
    SelectRowIsBest(swept, o, now);
    SlotStaysFree(db, o, s, now);
    var pick := SelectRow(swept, o, now);
    if pick.Some? {
      PlaceKeepsInv(swept, slot, Hold(o, s, pick.value, Held, now, now + TTL, None));
    }
  }

  lemma ReserveKeepsInv(db: Db, o: OrgId, s: SessionId, now: int)
    requires Inv(db)
    ensures Keyed(db) && Inv(ReserveTx(db, o, s, now).db)
  {
    hide Inv, Keyed, FreshHold;
    InvKeyed(db);
    var slot := FindHold(db.holds, s);
    if o in db.wallets {
      if slot.None? || (db.holds[slot.value].org == o && db.holds[slot.value].status == Released) {
        FreshHoldKeepsInv(db, o, s, slot, now);
      } else if db.holds[slot.value].org == o && db.holds[slot.value].status == Held {
        RenewKeepsInv(db, slot.value, now + TTL);
      }
    }
  }

  lemma CaptureTxKeepsInv(db: Db, o: OrgId, s: SessionId, now: int)
    requires Inv(db)
    ensures Keyed(db) && Inv(CaptureTx(db, o, s, now).db)
  {
    hide Inv, Keyed, CaptureHold;
    InvKeyed(db);
    var slot := FindHold(db.holds, s);
    if slot.Some? && db.holds[slot.value].status == Held {
      CaptureKeepsInv(db, slot.value, now);
    }
  }

  lemma ReleaseTxKeepsInv(db: Db, o: OrgId, s: SessionId, now: int)
    requires Inv(db)
    ensures Keyed(db) && Inv(ReleaseTx(db, o, s, now).db)
  {
    hide Inv, Keyed, ReleaseHold, ExpirySweep;
    InvKeyed(db);
    var slot := FindHold(db.holds, s);
    if slot.Some? && db.holds[slot.value].status == Held {
      ReleaseKeepsInv(db, slot.value, now);
      ExpirySweepKeepsInv(ReleaseHold(db, slot.value, now), o, now);
    }
  }

  lemma FreezeKeepsInv(db: Db, r: nat, now: int)
    requires Inv(db) && r < |db.lots|
    ensures Keyed(db) && Inv(FreezeTx(db, r, now).db)
  {
    hide Inv, Keyed, CloseLot;
    InvKeyed(db);
    if db.lots[r].lot.status == Active {
      var row := db.lots[r].(frozenAt := Some(now));
      QuietLotWriteKeepsInv(db, r, row);
      CloseKeepsInv(db.(lots := db.lots[r := row]), r, Frozen, DisputeFreeze);
    }
  }

  lemma ResolveKeepsInv(db: Db, r: nat, won: bool, now: int)
    requires Inv(db) && r < |db.lots|
    ensures Keyed(db) && Inv(ResolveTx(db, r, won, now).db)
  {
    hide Inv, Keyed, ReopenLot, ExpirySweep;
    InvKeyed(db);
    if db.lots[r].lot.status == Frozen {
      if won {
        ReopenKeepsInv(db, r);
        ExpirySweepKeepsInv(ReopenLot(db, r), db.lots[r].org, now);
      } else {
        QuietLotWriteKeepsInv(db, r, db.lots[r].(lot := db.lots[r].lot.(status := Revoked)));
      }
    }
  }

  lemma RefundKeepsInv(db: Db, r: nat, refunded: int, charged: int)
    requires Inv(db) && r < |db.lots|
    ensures Keyed(db) && Inv(RefundTx(db, r, refunded, charged).db)
  {
    hide Inv, Keyed, CloseLot, MatchesUnconsumedProrata;
    InvKeyed(db);
    if db.lots[r].lot.status == Active {
      CloseKeepsInv(db, r, Revoked, RefundReversal);
    }
  }

  // ---- runs ----

  /**
   * One committed transaction. A money-exit step names a lot row located earlier, outside the lock: any row
   * that exists when the step runs may have been located at any moment before.
   */
  datatype Step =
    | EnsureWallet(org: OrgId, now: int, days: int, lotId: int)
    | Grant(input: GrantInput)
    | ReserveFor(org: OrgId, session: SessionId, now: int)
    | CaptureFor(org: OrgId, session: SessionId, now: int)
    | ReleaseFor(org: OrgId, session: SessionId, now: int)
    | ReleaseExpired(org: OrgId, now: int)
    | ExpireDue(org: OrgId, now: int)
    | FreezeLot(row: nat, now: int)
    | ResolveDispute(row: nat, won: bool, now: int)
    | RefundLot(row: nat, refunded: int, charged: int)

  function Apply(db: Db, step: Step): (r: Db)
    requires Keyed(db)
    ensures Keyed(r)
  {
    match step
    case EnsureWallet(o, now, days, lotId) => EnsureWalletTx(db, o, now, days, lotId).db
    case Grant(g) => GrantTx(db, g).db
    case ReserveFor(o, s, now) => ReserveTx(db, o, s, now).db
    case CaptureFor(o, s, now) => CaptureTx(db, o, s, now).db
    case ReleaseFor(o, s, now) => ReleaseTx(db, o, s, now).db
    case ReleaseExpired(o, now) => ReleaseExpiredTx(db, o, now).db
    case ExpireDue(o, now) => ExpireDueTx(db, o, now).db
    case FreezeLot(r, now) => if r < |db.lots| then FreezeTx(db, r, now).db else db
    case ResolveDispute(r, won, now) => if r < |db.lots| then ResolveTx(db, r, won, now).db else db
    case RefundLot(r, refunded, charged) => if r < |db.lots| then RefundTx(db, r, refunded, charged).db else db
  }

  /** The state after all the steps, in order. */
  function Run(db: Db, steps: seq<Step>): (r: Db)
    requires Keyed(db)
    ensures Keyed(r)
  {
    if steps == [] then db else Apply(Run(db, steps[..|steps| - 1]), steps[|steps| - 1])
  }

  lemma RunOneMore(db: Db, steps: seq<Step>, step: Step)
    requires Keyed(db)
    ensures Run(db, steps + [step]) == Apply(Run(db, steps), step)
  {
    assert (steps + [step])[..|steps|] == steps;
  }

  lemma ApplyKeepsInv(db: Db, step: Step)
    requires Inv(db)
    ensures Keyed(db) && Inv(Apply(db, step))
  {
    hide Inv, Keyed;
    hide EnsureWalletTx, GrantTx, ReserveTx, CaptureTx, ReleaseTx, FreezeTx, ResolveTx, RefundTx, ExpirySweep, Swept;
    InvKeyed(db);
    match step
    case EnsureWallet(o, now, days, lotId) => EnsureWalletKeepsInv(db, o, now, days, lotId);
    case Grant(g) => GrantKeepsInv(db, g);
    case ReserveFor(o, s, now) => ReserveKeepsInv(db, o, s, now);
    case CaptureFor(o, s, now) => CaptureTxKeepsInv(db, o, s, now);
    case ReleaseFor(o, s, now) => ReleaseTxKeepsInv(db, o, s, now);
    case ReleaseExpired(o, now) => SweptKeepsInv(db, o, now);
    case ExpireDue(o, now) => ExpirySweepKeepsInv(db, o, now);
    case FreezeLot(r, now) =>
      if r < |db.lots| {
        FreezeKeepsInv(db, r, now);
      }
    case ResolveDispute(r, won, now) =>
      if r < |db.lots| {
        ResolveKeepsInv(db, r, won, now);
      }
    case RefundLot(r, refunded, charged) =>
      if r < |db.lots| {
        RefundKeepsInv(db, r, refunded, charged);
      }
  }

  /** Conservation over whole runs: every reachable state is balanced. */
  lemma {:induction false} RunKeepsInv(db: Db, steps: seq<Step>)
    requires Inv(db)
    ensures Keyed(db) && Inv(Run(db, steps))
  {
    hide Inv, Keyed, Apply;
    InvKeyed(db);
    if steps != [] {
      RunKeepsInv(db, steps[..|steps| - 1]);
      ApplyKeepsInv(Run(db, steps[..|steps| - 1]), steps[|steps| - 1]);
    }
  }
}
