/**
 * The ledger as the program runs it: tables updated in place, one statement at a time, running totals folded
 * into one wallet write. Each method is proved to commit exactly the transaction of LedgerModel it stands for.
 */
module CreditLedgerStore {
  import opened Sums
  import opened CreditLots
  import opened LedgerModel
  import opened LedgerInvariant
  import opened LedgerRuns
  import opened LedgerExits
  import opened WalletAudit

  // ---- folding several wallet changes into one ----

  lemma AdjustComposes(db: Db, o: OrgId, a: int, r: int, a': int, r': int)
    requires o in db.wallets
    ensures Adjust(Adjust(db, o, a, r), o, a', r') == Adjust(db, o, a + a', r + r')
  {
    var w := db.wallets[o];
    var once := w.(available := w.available + a, reserved := w.reserved + r);
    assert db.wallets[o := once][o := once.(available := once.available + a', reserved := once.reserved + r')]
        == db.wallets[o := w.(available := w.available + (a + a'), reserved := w.reserved + (r + r'))];
  }

  lemma AdjustNothing(db: Db, o: OrgId)
    requires o in db.wallets
    ensures Adjust(db, o, 0, 0) == db
  {
    assert db.wallets[o := db.wallets[o]] == db.wallets;
  }

  lemma AdjustKeepsKeys(db: Db, o: OrgId, a: int, r: int)
    requires Keyed(db) && o in db.wallets
    ensures Keyed(Adjust(db, o, a, r))
  {
  }

  /** One more release, seen through a wallet whose pending change is still to be written. */
  lemma PendingRelease(db: Db, o: OrgId, a: int, r: int, i: nat, now: int)
    requires Keyed(db) && o in db.wallets && Keyed(Adjust(db, o, a, r)) && i < |db.holds| && db.holds[i].org == o
    ensures o in ReleaseRow(db, i, now).wallets
    ensures ReleaseHold(Adjust(db, o, a, r), i, now) == Adjust(ReleaseRow(db, i, now), o, a + ReleaseDelta(db, i), r - 1)
  {
    HoldKeys(db, i);
    hide Keyed;
    AdjustComposes(ReleaseRow(db, i, now), o, a, r, ReleaseDelta(db, i), -1);
    assert ReleaseRow(Adjust(db, o, a, r), i, now) == Adjust(ReleaseRow(db, i, now), o, a, r);
  }

  /** A lot's status change and its entry, before the wallet is written. */
  function CloseRow(db: Db, r: nat, status: LotStatus, kind: EntryKind): Db
    requires r < |db.lots|
  {
    var row := db.lots[r];
    Append(SetLot(db, r, row.lot.(status := status)), Entry(row.org, r, kind, -AvailableInLot(row.lot), None))
  }

  lemma PendingClose(db: Db, o: OrgId, a: int, r: nat, status: LotStatus, kind: EntryKind)
    requires Keyed(db) && o in db.wallets && Keyed(Adjust(db, o, a, 0)) && r < |db.lots| && db.lots[r].org == o
    ensures CloseLot(Adjust(db, o, a, 0), r, status, kind) ==
            Adjust(CloseRow(db, r, status, kind), o, a - AvailableInLot(db.lots[r].lot), 0)
  {
    hide Keyed;
    AdjustComposes(CloseRow(db, r, status, kind), o, a, 0, -AvailableInLot(db.lots[r].lot), 0);
  }

  lemma FirstReleases(db: Db, due: seq<nat>, now: int)
    requires Keyed(db)
    ensures ReleaseFirst(db, due, 0, now) == db
  {
  }

  lemma FirstExpiries(db: Db, due: seq<nat>)
    requires Keyed(db)
    ensures ExpireFirst(db, due, 0) == db
  {
  }

  /** At the k-th hold of the sweep the row is still live, and releasing it is the k-th step of TtlSweep. */
  lemma StillDue(before: Db, db: Db, o: OrgId, pending: int, due: seq<nat>, k: nat, now: int)
    requires Keyed(before) && Keyed(db) && o in db.wallets && LiveHolds(before, due) && k < |due|
    requires before.holds[due[k]].org == o
    requires Adjust(db, o, pending, 0 - k) == ReleaseFirst(before, due, k, now)
    ensures due[k] < |db.holds| && o in ReleaseRow(db, due[k], now).wallets
    ensures (forall j | 0 <= j < |due| :: due[j] < |before.holds|)
    ensures ReleaseFirst(before, due, k + 1, now) ==
            Adjust(ReleaseRow(db, due[k], now), o, pending + ReleaseDelta(db, due[k]), -(k + 1))
  {
    hide Keyed, ReleaseRow, ReleaseHold;
    StillLive(before, due, k, now);
    assert db.holds == ReleaseFirst(before, due, k, now).holds;
    AdjustKeepsKeys(db, o, pending, 0 - k);
    PendingRelease(db, o, pending, 0 - k, due[k], now);
  }

  lemma DueLotsAreOpen(lots: seq<LotRow>, o: OrgId, now: int)
    ensures OpenLots(lots, DueLots(lots, o, now))
  {
  }

  lemma NeverOverdrawn(db: Db, r: nat)
    requires Inv(db) && r < |db.lots|
    ensures AvailableInLot(db.lots[r].lot) >= 0
  {
    LotFacts(db, r);
  }

  lemma NextExpiryStep(db: Db, due: seq<nat>, k: nat)
    requires Keyed(db) && k < |due| && forall j | 0 <= j < |due| :: due[j] < |db.lots|
    ensures ExpireFirst(db, due, k + 1) == CloseLot(ExpireFirst(db, due, k), due[k], Expired, Expire)
  {
  }

  /** At the k-th lot of the sweep the row is unchanged, and closing it is the k-th step of ExpirySweep. */
  lemma StillToExpire(before: Db, db: Db, o: OrgId, writtenOff: int, due: seq<nat>, k: nat, now: int)
    requires Inv(before) && Keyed(before) && Keyed(db) && o in db.wallets && due == DueLots(before.lots, o, now) && k < |due|
    requires Adjust(db, o, -writtenOff, 0) == ExpireFirst(before, due, k)
    ensures due[k] < |db.lots| && db.lots[due[k]].org == o && AvailableInLot(db.lots[due[k]].lot) >= 0
    ensures Keyed(CloseRow(db, due[k], Expired, Expire)) && o in CloseRow(db, due[k], Expired, Expire).wallets
    ensures ExpireFirst(before, due, k + 1) ==
            Adjust(CloseRow(db, due[k], Expired, Expire), o, -(writtenOff + AvailableInLot(db.lots[due[k]].lot)), 0)
  {
    hide Inv, Keyed, CloseLot, CloseRow, ExpireFirst, OpenLots;
    DueLotsAreOpen(before.lots, o, now);
    StillOpen(before, due, k);
    assert db.lots == ExpireFirst(before, due, k).lots;
    NeverOverdrawn(before, due[k]);
    NextExpiryStep(before, due, k);
    CloseRowKeepsWallets(db, due[k], Expired, Expire);
    AdjustKeepsKeys(db, o, -writtenOff, 0);
    PendingClose(db, o, -writtenOff, due[k], Expired, Expire);
    CloseRowKeepsKeys(db, due[k], Expired, Expire);
  }

  /** The three money exits of a payment's lot. */
  datatype Exit = Freeze(now: int) | Resolve(won: bool, now: int) | Refund(refunded: int, charged: int)

  function ExitTx(db: Db, r: nat, exit: Exit): Tx<Adjustment>
    requires Keyed(db) && r < |db.lots|
  {
    match exit
    case Freeze(now) => FreezeTx(db, r, now)
    case Resolve(won, now) => ResolveTx(db, r, won, now)
    case Refund(refunded, charged) => RefundTx(db, r, refunded, charged)
  }

  /** Under the lock the row is known: no exit reports a missing lot, and only an applied one writes. */
  lemma ExitOutcomes(db: Db, r: nat, exit: Exit)
    requires Keyed(db) && r < |db.lots|
    ensures var t := ExitTx(db, r, exit);
            t.out.Returned? && !t.out.value.NoLot? && (!t.out.value.Applied? ==> t.db == db)
  {
    hide Keyed, CloseLot, ReopenLot, ExpirySweep, MatchesUnconsumedProrata;
  }

  lemma BadAmountsChangeNothing(db: Db, g: GrantInput)
    requires Keyed(db) && !ValidAmounts(g)
    ensures GrantTx(db, g).db == db
  {
  }

  class CreditLedger {
    var wallets: map<OrgId, Wallet>
    var lots: seq<LotRow>
    var holds: seq<Hold>
    var log: seq<Entry>

    function Snapshot(): Db
      reads this
    {
      Db(wallets, lots, holds, log)
    }

    ghost predicate Valid()
      reads this
    {
      Inv(Snapshot())
    }

    constructor ()
      ensures Valid() && Snapshot() == EMPTY_DB
    {
      wallets, lots, holds, log := map[], [], [], [];
      new;
      EmptyIsOk();
    }

    // ---- statements: one row written, nothing else touched ----

    method UpdateLot(r: nat, lot: Lot)
      requires r < |lots|
      modifies this`lots
      ensures Snapshot() == SetLot(old(Snapshot()), r, lot)
    {
      lots := lots[r := lots[r].(lot := lot)];
    }

    method UpdateHold(i: nat, h: Hold)
      requires i < |holds|
      modifies this`holds
      ensures Snapshot() == SetHold(old(Snapshot()), i, h)
    {
      holds := holds[i := h];
    }

    method InsertEntry(e: Entry)
      modifies this`log
      ensures Snapshot() == Append(old(Snapshot()), e)
    {
      log := log + [e];
    }

    /** Moves both counters of a wallet by the given amounts. */
    method IncrementWallet(o: OrgId, available: int, reserved: int)
      requires o in wallets
      modifies this`wallets
      ensures Snapshot() == Adjust(old(Snapshot()), o, available, reserved)
    {
      var w := wallets[o];
      wallets := wallets[o := w.(available := w.available + available, reserved := w.reserved + reserved)];
    }

    // ---- in-transaction primitives ----

    /** Hold row i goes back to its lot; the wallet is still owed delta, which is nothing when the lot is closed. */
    method ReleaseReservationRow(i: nat, now: int) returns (delta: int)
      requires Keyed(Snapshot()) && i < |holds|
      modifies this`lots, this`holds, this`log
      ensures Snapshot() == ReleaseRow(old(Snapshot()), i, now)
      ensures delta == ReleaseDelta(old(Snapshot()), i)
    {
      HoldKeys(Snapshot(), i);
      hide Keyed;
      var h := holds[i];
      var lot := lots[h.lot].lot;
      UpdateLot(h.lot, lot.(reserved := lot.reserved - 1));
      UpdateHold(i, h.(status := Released, resolvedAt := Some(now)));
      InsertEntry(Entry(h.org, h.lot, Release, 1, Some(h.session)));
      if lot.status == Active {
        return 1;
      }
      InsertEntry(Entry(h.org, h.lot, Expire, -1, Some(h.session)));
      delta := 0;
    }

    /** Releases every hold past its TTL and folds the returned credits into one wallet write. */
    method ReleaseExpiredReservationsInTx(o: OrgId, now: int) returns (releasedCount: nat)
      requires Valid() && o in wallets
      modifies this
      ensures Valid() && Keyed(old(Snapshot())) && Snapshot() == TtlSweep(old(Snapshot()), o, now)
      ensures releasedCount == |DueHolds(old(holds), o, now)|
    {
      hide Inv, Keyed, ReleaseRow, ReleaseDelta, ReleaseFirst;
      ghost var before := Snapshot();
      InvKeyed(before);
      TtlSweepKeepsInv(before, o, now);
      var due := DueHolds(holds, o, now);
      FirstReleases(before, due, now);
      if |due| == 0 {
        return 0;
      }
      AdjustNothing(before, o);
      var availableDelta := 0;
      for k := 0 to |due|
        invariant o in wallets && Keyed(Snapshot()) && |holds| == |before.holds|
        invariant Adjust(Snapshot(), o, availableDelta, 0 - k) == ReleaseFirst(before, due, k, now)
      {
        StillDue(before, Snapshot(), o, availableDelta, due, k, now);
        var delta := ReleaseReservationRow(due[k], now);
        availableDelta := availableDelta + delta;
      }
      IncrementWallet(o, availableDelta, 0 - |due|);
      releasedCount := |due|;
    }

    /** Writes off every active lot past its expiry, with one wallet write for the whole sweep. */
    method ExpireDueLotsInTx(o: OrgId, now: int) returns (expiredLots: seq<nat>)
      requires Valid() && o in wallets
      modifies this
      ensures Valid() && Keyed(old(Snapshot())) && Snapshot() == ExpirySweep(old(Snapshot()), o, now)
      ensures expiredLots == DueLots(old(lots), o, now)
    {
      hide Inv, Keyed, ExpireFirst;
      ghost var before := Snapshot();
      InvKeyed(before);
      ExpirySweepKeepsInv(before, o, now);
      var due := DueLots(lots, o, now);
      FirstExpiries(before, due);
      if |due| == 0 {
        return [];
      }
      AdjustNothing(before, o);
      expiredLots := [];
      var writtenOff := 0;
      for k := 0 to |due|
        invariant o in wallets && Keyed(Snapshot()) && |lots| == |before.lots|
        invariant Adjust(Snapshot(), o, -writtenOff, 0) == ExpireFirst(before, due, k)
        invariant expiredLots == due[..k] && writtenOff >= 0
      {
        var r := due[k];
        StillToExpire(before, Snapshot(), o, writtenOff, due, k, now);
        var lot := lots[r].lot;
        var remaining := AvailableInLot(lot);
        UpdateLot(r, lot.(status := Expired));
        InsertEntry(Entry(o, r, Expire, -remaining, None));
        expiredLots := expiredLots + [r];
        writtenOff := writtenOff + remaining;
      }
      AdjustNothing(Snapshot(), o);
      if writtenOff > 0 {
        IncrementWallet(o, -writtenOff, 0);
      }
    }

    // ---- entry points ----

    /** Creates the wallet with its five free credits; does nothing when the wallet exists. */
    method EnsureWallet(o: OrgId, now: int, days: int, lotId: int) returns (r: Attempt<()>)
      requires Valid()
      modifies this
      ensures Valid() && Keyed(old(Snapshot()))
      ensures Snapshot() == EnsureWalletTx(old(Snapshot()), o, now, days, lotId).db
      ensures r == EnsureWalletTx(old(Snapshot()), o, now, days, lotId).out
    {
      hide Inv, Keyed;
      InvKeyed(Snapshot());
      EnsureWalletKeepsInv(Snapshot(), o, now, days, lotId);
      if o in wallets {
        return Returned(());
      }
      if FindId(lots, lotId).Some? {
        return Thrown(UniqueViolation);
      }
      wallets := wallets[o := Wallet(FIRST_FIVE_CREDITS, 0, None)];
      var row := FirstFiveRow(o, now, days, lotId);
      log := log + [Entry(o, |lots|, FreeGrant, FIRST_FIVE_CREDITS, None)];
      lots := lots + [row];
      assert old(wallets)[o := Wallet(0, 0, None)][o := Wallet(FIRST_FIVE_CREDITS, 0, None)] == wallets;
      r := Returned(());
    }

    /** Turns one settled payment into one paid lot. */
    method GrantPurchasedCreditLot(g: GrantInput, firstFiveId: int) returns (r: Attempt<GrantOutcome>)
      requires Valid()
      modifies this
      ensures Valid() && Keyed(old(Snapshot()))
      ensures !ValidAmounts(g) ==> Snapshot() == old(Snapshot()) && r == Thrown(InvalidPurchaseAmount)
      ensures ValidAmounts(g) ==>
                var ready := EnsureWalletTx(old(Snapshot()), g.org, g.now, PAID_CREDIT_EXPIRY_DAYS, firstFiveId);
                if ready.out.Thrown? then Snapshot() == old(Snapshot()) && r == Thrown(ready.out.error)
                else Snapshot() == GrantTx(ready.db, g).db && r == GrantTx(ready.db, g).out
    {
      InvKeyed(Snapshot());
      if g.credits <= 0 || g.unitAmountCents < 0 {
        return Thrown(InvalidPurchaseAmount);
      }
      var ready := EnsureWallet(g.org, g.now, PAID_CREDIT_EXPIRY_DAYS, firstFiveId);
      if ready.Thrown? {
        return Thrown(ready.error);
      }
      r := GrantUnderLock(g);
    }

    /** The locked part of a purchase: idempotency first, then the currency gate, then the three writes. */
    method GrantUnderLock(g: GrantInput) returns (r: Attempt<GrantOutcome>)
      requires Valid() && ValidAmounts(g)
      modifies this
      ensures Valid() && Keyed(old(Snapshot()))
      ensures Snapshot() == GrantTx(old(Snapshot()), g).db && r == GrantTx(old(Snapshot()), g).out
    {
      hide Inv, Keyed, Upper, FirstConflict, FindId, FindPayment;
      InvKeyed(Snapshot());
      GrantKeepsInv(Snapshot(), g);
      if g.org !in wallets {
        return Thrown(MissingCreditWallet);
      }
      var existing := FindPayment(lots, g.payment);
      if existing.Some? && lots[existing.value].org == g.org {
        return Returned(AlreadyGranted);
      }
      var incoming := Upper(g.currency);
      var settlement := wallets[g.org].currency;
      if existing.None? {
        if settlement.None? {
          var conflicting := FirstConflict(lots, g.org, incoming);
          if conflicting.Some? {
            return Returned(CurrencyMismatch(conflicting.value, incoming));
          }
          settlement := Some(incoming);
        } else if settlement.value != incoming {
          return Returned(CurrencyMismatch(settlement.value, incoming));
        }
      }
      if existing.Some? || FindId(lots, g.lotId).Some? {
        return Thrown(UniqueViolation);
      }
      wallets := wallets[g.org := wallets[g.org].(currency := settlement)];
      log := log + [Entry(g.org, |lots|, PackPurchase, g.credits, None)];
      lots := lots + [PaidRow(g)];
      IncrementWallet(g.org, g.credits, 0);
      r := Returned(Granted(|lots| - 1));
    }

    /** Holds one credit for a session: resumes a live hold, or sweeps, selects a lot and takes a fresh one. */
    method ReserveCreditForSession(o: OrgId, s: SessionId, now: int, firstFiveId: int) returns (r: Attempt<ReserveOutcome>)
      requires Valid()
      modifies this
      ensures Valid() && Keyed(old(Snapshot()))
      ensures var ready := EnsureWalletTx(old(Snapshot()), o, now, FIRST_FIVE_EXPIRY_DAYS, firstFiveId);
              if ready.out.Thrown? then Snapshot() == old(Snapshot()) && r == Thrown(ready.out.error)
              else Snapshot() == ReserveTx(ready.db, o, s, now).db && r == ReserveTx(ready.db, o, s, now).out
    {
      InvKeyed(Snapshot());
      var ready := EnsureWallet(o, now, FIRST_FIVE_EXPIRY_DAYS, firstFiveId);
      if ready.Thrown? {
        return Thrown(ready.error);
      }
      r := ReserveUnderLock(o, s, now);
    }

    method ReserveUnderLock(o: OrgId, s: SessionId, now: int) returns (r: Attempt<ReserveOutcome>)
      requires Valid()
      modifies this
      ensures Valid() && Keyed(old(Snapshot()))
      ensures Snapshot() == ReserveTx(old(Snapshot()), o, s, now).db && r == ReserveTx(old(Snapshot()), o, s, now).out
    {
      hide Inv, Keyed, FreshHold;
      InvKeyed(Snapshot());
      ReserveKeepsInv(Snapshot(), o, s, now);
      if o !in wallets {
        return Thrown(MissingCreditWallet);
      }
      var existing := FindHold(holds, s);
      if existing.Some? {
        var h := holds[existing.value];
        if h.org != o {
          return Thrown(ReservationOrganizationMismatch);
        }
        if h.status == Captured {
          return Returned(ReserveOk(existing.value));
        }
        if h.status == Held {
          holds := holds[existing.value := h.(expiresAt := now + TTL)];
          return Returned(ReserveOk(existing.value));
        }
      }
      r := TakeFreshHold(o, s, existing, now);
    }

    method TakeFreshHold(o: OrgId, s: SessionId, slot: Option<nat>, now: int) returns (r: Attempt<ReserveOutcome>)
      requires Valid() && o in wallets && slot == FindHold(holds, s)
      requires slot.Some? ==> holds[slot.value].org == o && holds[slot.value].status == Released
      modifies this
      ensures Valid() && Keyed(old(Snapshot()))
      ensures Snapshot() == FreshHold(old(Snapshot()), o, s, slot, now).db
      ensures r == FreshHold(old(Snapshot()), o, s, slot, now).out
    {
      hide Inv, Keyed, SelectRow, FindHold, TtlSweep, ExpirySweep, PlaceHold, FreeSlot;
      ghost var before := Snapshot();
      InvKeyed(before);
      FreshHoldKeepsInv(before, o, s, slot, now);
      SlotStaysFree(before, o, s, now);
      var released := ReleaseExpiredReservationsInTx(o, now);
      var expired := ExpireDueLotsInTx(o, now);
      assert Snapshot() == Swept(before, o, now);
      hide Swept;
      var pick := SelectRow(Snapshot(), o, now);
      if pick.None? {
        return Returned(NoCreditsAvailable);
      }
      var row := WriteHold(slot, Hold(o, s, pick.value, Held, now, now + TTL, None));
      r := Returned(ReserveOk(row));
    }

    /** The four writes of a fresh hold; a released hold is taken again on the row it already has. */
    method WriteHold(slot: Option<nat>, h: Hold) returns (row: nat)
      requires Keyed(Snapshot()) && h.lot < |lots| && h.org == lots[h.lot].org && FreeSlot(Snapshot(), slot, h.session)
      modifies this
      ensures Keyed(old(Snapshot())) && Snapshot() == PlaceHold(old(Snapshot()), slot, h)
      ensures row == if slot.Some? then slot.value else |old(holds)|
    {
      hide Keyed;
      LotKeys(Snapshot(), h.lot);
      var lot := lots[h.lot].lot;
      UpdateLot(h.lot, lot.(reserved := lot.reserved + 1));
      row := |holds|;
      if slot.Some? {
        row := slot.value;
        holds := holds[row := h];
      } else {
        holds := holds + [h];
      }
      InsertEntry(Entry(h.org, h.lot, Reserve, -1, Some(h.session)));
      IncrementWallet(h.org, -1, 1);
    }

    /** Turns a held reservation into a consumed credit. */
    method CaptureReservationForSession(o: OrgId, s: SessionId, now: int) returns (r: Attempt<CaptureOutcome>)
      requires Valid()
      modifies this
      ensures Valid() && Keyed(old(Snapshot()))
      ensures Snapshot() == CaptureTx(old(Snapshot()), o, s, now).db && r == CaptureTx(old(Snapshot()), o, s, now).out
    {
      hide Inv, Keyed, FindHold;
      InvKeyed(Snapshot());
      CaptureTxKeepsInv(Snapshot(), o, s, now);
      if o !in wallets {
        return Thrown(MissingCreditWallet);
      }
      var slot := FindHold(holds, s);
      if slot.None? || holds[slot.value].org != o {
        return Returned(NothingToCapture);
      }
      var h := holds[slot.value];
      if h.status == Captured {
        return Returned(AlreadyCaptured);
      }
      if h.status != Held {
        return Returned(NothingToCapture);
      }
      HoldKeys(Snapshot(), slot.value);
      var lot := lots[h.lot].lot;
      var moved := lot.(reserved := lot.reserved - 1, consumed := lot.consumed + 1);
      UpdateLot(h.lot, moved);
      if moved.status == Active && moved.consumed >= moved.granted {
        UpdateLot(h.lot, moved.(status := Exhausted));
      }
      assert Snapshot() == SetLot(old(Snapshot()), h.lot, CapturedLot(lot));
      UpdateHold(slot.value, h.(status := Captured, resolvedAt := Some(now)));
      InsertEntry(Entry(o, h.lot, Consume, 0, Some(s)));
      IncrementWallet(o, 0, -1);
      r := Returned(CaptureDone);
    }

    /** Hands a held credit back, then writes off whatever has fallen due. */
    method ReleaseReservationForSession(o: OrgId, s: SessionId, now: int) returns (r: Attempt<ReleaseOutcome>)
      requires Valid()
      modifies this
      ensures Valid() && Keyed(old(Snapshot()))
      ensures Snapshot() == ReleaseTx(old(Snapshot()), o, s, now).db && r == ReleaseTx(old(Snapshot()), o, s, now).out
    {
      hide Inv, Keyed, FindHold, ExpirySweep, ReleaseRow;
      ghost var before := Snapshot();
      InvKeyed(before);
      if o !in wallets {
        return Thrown(MissingCreditWallet);
      }
      var slot := FindHold(holds, s);
      if slot.None? || holds[slot.value].org != o {
        return Returned(NothingToRelease);
      }
      if holds[slot.value].status != Held {
        return Returned(AlreadyResolved);
      }
      ReleaseKeepsInv(before, slot.value, now);
      HoldKeys(before, slot.value);
      var availableDelta := ReleaseReservationRow(slot.value, now);
      IncrementWallet(o, availableDelta, -1);
      var expired := ExpireDueLotsInTx(o, now);
      r := Returned(ReleaseDone);
    }

    /** The scheduled sweep of stale holds, followed by the lot expiry sweep. */
    method ReleaseExpiredReservations(o: OrgId, now: int) returns (r: Attempt<nat>)
      requires Valid()
      modifies this
      ensures Valid() && Keyed(old(Snapshot()))
      ensures Snapshot() == ReleaseExpiredTx(old(Snapshot()), o, now).db && r == ReleaseExpiredTx(old(Snapshot()), o, now).out
    {
      hide Inv, Keyed, TtlSweep, ExpirySweep;
      InvKeyed(Snapshot());
      if o !in wallets {
        return Thrown(MissingCreditWallet);
      }
      var count := ReleaseExpiredReservationsInTx(o, now);
      var expired := ExpireDueLotsInTx(o, now);
      r := Returned(count);
    }

    method ExpireDueLots(o: OrgId, now: int) returns (r: Attempt<seq<nat>>)
      requires Valid()
      modifies this
      ensures Valid() && Keyed(old(Snapshot()))
      ensures Snapshot() == ExpireDueTx(old(Snapshot()), o, now).db && r == ExpireDueTx(old(Snapshot()), o, now).out
    {
      hide Inv, Keyed, ExpirySweep;
      InvKeyed(Snapshot());
      if o !in wallets {
        return Thrown(MissingCreditWallet);
      }
      var expired := ExpireDueLotsInTx(o, now);
      r := Returned(expired);
    }

    // ---- money exits: locate outside the lock, decide on the row re-read under it ----

    method LocateLot(p: PaymentId) returns (r: Option<nat>)
      ensures r == FindPayment(lots, p)
    {
      r := FindPayment(lots, p);
    }

    method FreezeLotForDispute(r: nat, now: int) returns (a: Adjustment)
      requires Valid() && r < |lots|
      modifies this
      ensures Valid() && Keyed(old(Snapshot()))
      ensures Snapshot() == FreezeTx(old(Snapshot()), r, now).db && Returned(a) == FreezeTx(old(Snapshot()), r, now).out
    {
      hide Inv, Keyed;
      InvKeyed(Snapshot());
      LotKeys(Snapshot(), r);
      FreezeKeepsInv(Snapshot(), r, now);
      var row := lots[r];
      if row.lot.status == Exhausted {
        return NeedsAdmin(r, "dispute_after_consumption");
      }
      if row.lot.status != Active {
        return AlreadyApplied(r, row.lot.status);
      }
      var frozenCredits := AvailableInLot(row.lot);
      lots := lots[r := row.(frozenAt := Some(now), lot := row.lot.(status := Frozen))];
      assert old(lots)[r := row.(frozenAt := Some(now))]
          [r := row.(frozenAt := Some(now), lot := row.lot.(status := Frozen))] == lots;
      InsertEntry(Entry(row.org, r, DisputeFreeze, -frozenCredits, None));
      IncrementWallet(row.org, -frozenCredits, 0);
      a := Applied(r, frozenCredits);
    }

    method ResolveDisputeOnLot(r: nat, won: bool, now: int) returns (a: Adjustment)
      requires Valid() && r < |lots|
      modifies this
      ensures Valid() && Keyed(old(Snapshot()))
      ensures Snapshot() == ResolveTx(old(Snapshot()), r, won, now).db
      ensures Returned(a) == ResolveTx(old(Snapshot()), r, won, now).out
    {
      ghost var before := Snapshot();
      InvKeyed(before);
      LotKeys(before, r);
      ResolveKeepsInv(before, r, won, now);
      hide Keyed, ExpirySweep;
      var row := lots[r];
      if row.lot.status != Frozen {
        return AlreadyApplied(r, row.lot.status);
      }
      if !won {
        UpdateLot(r, row.lot.(status := Revoked));
        return Applied(r, 0);
      }
      ReopenKeepsInv(before, r);
      hide Inv;
      var restoredCredits := AvailableInLot(row.lot);
      UpdateLot(r, row.lot.(status := Active));
      InsertEntry(Entry(row.org, r, DisputeRelease, restoredCredits, None));
      IncrementWallet(row.org, restoredCredits, 0);
      var expired := ExpireDueLotsInTx(row.org, now);
      a := Applied(r, restoredCredits);
    }

    method RevokeUnconsumedLot(r: nat, refunded: int, charged: int) returns (a: Adjustment)
      requires Valid() && r < |lots|
      modifies this
      ensures Valid() && Keyed(old(Snapshot()))
      ensures Snapshot() == RefundTx(old(Snapshot()), r, refunded, charged).db
      ensures Returned(a) == RefundTx(old(Snapshot()), r, refunded, charged).out
    {
      hide Inv, Keyed, MatchesUnconsumedProrata;
      InvKeyed(Snapshot());
      LotKeys(Snapshot(), r);
      RefundKeepsInv(Snapshot(), r, refunded, charged);
      var row := lots[r];
      if row.lot.status == Exhausted {
        return NeedsAdmin(r, "full_refund_after_consumption");
      }
      if row.lot.status != Active {
        return AlreadyApplied(r, row.lot.status);
      }
      var revocable := AvailableInLot(row.lot);
      if refunded >= charged {
        if row.lot.consumed > 0 {
          return NeedsAdmin(r, "full_refund_after_consumption");
        }
      } else if !MatchesUnconsumedProrata(row.unitAmountCents, row.lot.granted, revocable, refunded) {
        return NeedsAdmin(r, "partial_refund_not_prorata");
      }
      UpdateLot(r, row.lot.(status := Revoked));
      InsertEntry(Entry(row.org, r, RefundReversal, -revocable, None));
      IncrementWallet(row.org, -revocable, 0);
      a := Applied(r, revocable);
    }

    /**
     * withLockedLotForPayment around one exit. Between the locate and the lock anything may commit; the exit decides on
     * the row as it is then, and a payment without a lot changes nothing.
     */
    method ExitForPayment(p: PaymentId, exit: Exit, between: seq<Step>) returns (a: Adjustment)
      requires Valid()
      modifies this
      ensures Valid() && Keyed(old(Snapshot()))
      ensures a.NoLot? <==> FindPayment(old(lots), p).None?
      ensures a.NoLot? ==> Snapshot() == old(Snapshot())
      ensures !a.NoLot? ==>
                var locked := Run(old(Snapshot()), between);
                var r := FindPayment(old(lots), p).value;
                && FindPayment(locked.lots, p) == Some(r)
                && (exit.Freeze? ==>
                      Tx(Snapshot(), Returned(a)) == FreezeTx(locked, r, exit.now))
                && (exit.Resolve? ==>
                      Tx(Snapshot(), Returned(a)) == ResolveTx(locked, r, exit.won, exit.now))
                && (exit.Refund? ==>
                      Tx(Snapshot(), Returned(a)) == RefundTx(locked, r, exit.refunded, exit.charged))
                && (!a.Applied? ==> Snapshot() == locked)
    {
      hide Inv, Keyed, FreezeTx, ResolveTx, RefundTx, Run, FindPayment;
      InvKeyed(Snapshot());
      var located := LocateLot(p);
      if located.None? {
        return NoLot;
      }
      LocatedRowStays(Snapshot(), p, between);
      CommitAll(between);
      ghost var locked := Snapshot();
      var r := located.value;
      InvKeyed(locked);
      ExitOutcomes(locked, r, exit);
      match exit {
        case Freeze(now) => a := FreezeLotForDispute(r, now);
        case Resolve(won, now) => a := ResolveDisputeOnLot(r, won, now);
        case Refund(refunded, charged) => a := RevokeUnconsumedLot(r, refunded, charged);
      }
    }

    // ---- what other callers commit meanwhile ----

    /** One transaction of any caller: the methods above commit the steps that runs are made of. */
    method Commit(step: Step)
      requires Valid()
      modifies this
      ensures Valid() && Keyed(old(Snapshot())) && Snapshot() == Apply(old(Snapshot()), step)
    {
      hide Inv, Keyed, EnsureWalletTx, GrantTx, ReserveTx, CaptureTx, ReleaseTx, FreezeTx, ResolveTx, RefundTx;
      hide ReleaseExpiredTx, ExpireDueTx;
      InvKeyed(Snapshot());
      match step {
        case EnsureWallet(o, now, days, lotId) => var r := EnsureWallet(o, now, days, lotId);
        case Grant(g) =>
          if ValidAmounts(g) {
            var r := GrantUnderLock(g);
          } else {
            BadAmountsChangeNothing(Snapshot(), g);
          }
        case ReserveFor(o, s, now) => var r := ReserveUnderLock(o, s, now);
        case CaptureFor(o, s, now) => var r := CaptureReservationForSession(o, s, now);
        case ReleaseFor(o, s, now) => var r := ReleaseReservationForSession(o, s, now);
        case ReleaseExpired(o, now) => var r := ReleaseExpiredReservations(o, now);
        case ExpireDue(o, now) => var r := ExpireDueLots(o, now);
        case FreezeLot(q, now) => if q < |lots| { var a := FreezeLotForDispute(q, now); }
        case ResolveDispute(q, won, now) => if q < |lots| { var a := ResolveDisputeOnLot(q, won, now); }
        case RefundLot(q, refunded, charged) => if q < |lots| { var a := RevokeUnconsumedLot(q, refunded, charged); }
      }
    }

    method CommitAll(steps: seq<Step>)
      requires Valid()
      modifies this
      ensures Valid() && Keyed(old(Snapshot())) && Snapshot() == Run(old(Snapshot()), steps)
    {
      hide Inv, Keyed, Apply;
      ghost var before := Snapshot();
      InvKeyed(before);
      for k := 0 to |steps|
        invariant Valid() && Snapshot() == Run(before, steps[..k])
      {
        assert steps[..k + 1][..k] == steps[..k];
        Commit(steps[k]);
      }
      assert steps[..|steps|] == steps;
    }

    /** The read-only audit: true exactly when no lot past its expiry still has spendable credits. */
    method ReconcileWallet(o: OrgId, now: int) returns (r: Attempt<Reconciliation>)
      requires Valid()
      ensures r == Reconcile(Snapshot(), o, now)
      ensures o in wallets ==> (r.value.consistent <==> NothingDue(Snapshot(), o, now))
    {
      if o in wallets {
        AuditIsExact(Snapshot(), o, now);
      }
      r := Reconcile(Snapshot(), o, now);
    }
  }

  lemma CloseRowKeepsWallets(db: Db, r: nat, status: LotStatus, kind: EntryKind)
    requires r < |db.lots|
    ensures CloseRow(db, r, status, kind).wallets == db.wallets
  {
  }

  lemma CloseRowKeepsKeys(db: Db, r: nat, status: LotStatus, kind: EntryKind)
    requires Keyed(db) && r < |db.lots|
    ensures Keyed(CloseRow(db, r, status, kind))
  {
  }
}
