/** What no run ever undoes: identities, final statuses, captured holds, the log and the currency lock. */
module LedgerHistory {
  import opened Sums
  import opened CreditLots
  import opened LedgerModel
  import opened LedgerInvariant
  import opened LedgerRuns

  predicate Final(status: LotStatus) {
    status == Exhausted || status == Expired || status == Revoked
  }

  predicate RowEvolves(was: LotRow, now: LotRow) {
    && was.org == now.org && was.payment == now.payment && was.currency == now.currency
    && was.unitAmountCents == now.unitAmountCents
    && was.lot.id == now.lot.id && was.lot.kind == now.lot.kind && was.lot.granted == now.lot.granted
    && was.lot.grantedAt == now.lot.grantedAt && was.lot.expiresAt == now.lot.expiresAt
    && was.lot.consumed <= now.lot.consumed
    && (Final(was.lot.status) ==> now.lot.status == was.lot.status)
  }

  /** Lot rows are never removed or re-identified, their consumption only grows, and final statuses stay. */
  ghost predicate LotsEvolve(a: seq<LotRow>, b: seq<LotRow>) {
    |a| <= |b| && forall r: nat | r < |a| :: RowEvolves(a[r], b[r])
  }

  predicate HoldEvolves(was: Hold, now: Hold) {
    was.session == now.session && was.org == now.org && (was.status == Captured ==> now == was)
  }

  /** A session keeps its row, and a captured row never changes again. */
  ghost predicate HoldsEvolve(a: seq<Hold>, b: seq<Hold>) {
    |a| <= |b| && forall i: nat | i < |a| :: HoldEvolves(a[i], b[i])
  }

  ghost predicate WalletsEvolve(a: map<OrgId, Wallet>, b: map<OrgId, Wallet>) {
    forall o | o in a :: o in b && (a[o].currency.Some? ==> b[o].currency == a[o].currency)
  }

  ghost predicate Evolves(a: Db, b: Db) {
    && LotsEvolve(a.lots, b.lots) && HoldsEvolve(a.holds, b.holds)
    && WalletsEvolve(a.wallets, b.wallets) && a.log <= b.log
  }

  lemma EvolvesTransitive(a: Db, b: Db, c: Db)
    requires Evolves(a, b) && Evolves(b, c)
    ensures Evolves(a, c)
  {
    forall r: nat | r < |a.lots| ensures RowEvolves(a.lots[r], c.lots[r]) {
      assert RowEvolves(a.lots[r], b.lots[r]) && RowEvolves(b.lots[r], c.lots[r]);
    }
    forall i: nat | i < |a.holds| ensures HoldEvolves(a.holds[i], c.holds[i]) {
      assert HoldEvolves(a.holds[i], b.holds[i]) && HoldEvolves(b.holds[i], c.holds[i]);
    }
  }

  lemma CloseEvolves(db: Db, r: nat, status: LotStatus, kind: EntryKind)
    requires Keyed(db) && r < |db.lots| && db.lots[r].lot.status == Active
    ensures Evolves(db, CloseLot(db, r, status, kind))
  {
    hide Keyed;
    LotKeys(db, r);
  }

  lemma ReleaseEvolves(db: Db, i: nat, now: int)
    requires Keyed(db) && i < |db.holds| && db.holds[i].status == Held
    ensures Evolves(db, ReleaseHold(db, i, now))
  {
    hide Keyed;
    HoldKeys(db, i);
  }

  lemma {:induction false} ExpiriesEvolve(db: Db, due: seq<nat>, n: nat)
    requires Keyed(db) && OpenLots(db.lots, due) && n <= |due|
    ensures Evolves(db, ExpireFirst(db, due, n))
  {
    hide Keyed, CloseLot;
    if n > 0 {
      ExpiriesEvolve(db, due, n - 1);
      StillOpen(db, due, n - 1);
      hide OpenLots;
      var before := ExpireFirst(db, due, n - 1);
      CloseEvolves(before, due[n - 1], Expired, Expire);
      hide Evolves;
      EvolvesTransitive(db, before, ExpireFirst(db, due, n));
    }
  }

  lemma {:induction false} ReleasesEvolve(db: Db, due: seq<nat>, n: nat, now: int)
    requires Keyed(db) && LiveHolds(db, due) && n <= |due|
    ensures Evolves(db, ReleaseFirst(db, due, n, now))
  {
    hide Keyed, ReleaseHold;
    if n > 0 {
      ReleasesEvolve(db, due, n - 1, now);
      StillLive(db, due, n - 1, now);
      hide LiveHolds;
      var before := ReleaseFirst(db, due, n - 1, now);
      ReleaseEvolves(before, due[n - 1], now);
      hide Evolves;
      EvolvesTransitive(db, before, ReleaseFirst(db, due, n, now));
    }
  }

  lemma ExpirySweepEvolves(db: Db, o: OrgId, now: int)
    requires Keyed(db)
    ensures Evolves(db, ExpirySweep(db, o, now))
  {
    hide Keyed, Evolves, ExpireFirst;
    var due := DueLots(db.lots, o, now);
    ExpiriesEvolve(db, due, |due|);
  }

  lemma SweptEvolves(db: Db, o: OrgId, now: int)
    requires Keyed(db)
    ensures Evolves(db, Swept(db, o, now))
  {
    hide Keyed, Evolves, ReleaseFirst;
    var due := DueHolds(db.holds, o, now);
    ReleasesEvolve(db, due, |due|, now);
    ExpirySweepEvolves(TtlSweep(db, o, now), o, now);
    EvolvesTransitive(db, TtlSweep(db, o, now), Swept(db, o, now));
  }

  lemma PlaceEvolves(db: Db, slot: Option<nat>, h: Hold)
    requires Keyed(db) && h.lot < |db.lots| && h.org == db.lots[h.lot].org && FreeSlot(db, slot, h.session)
    requires slot.Some? ==> db.holds[slot.value].org == h.org && db.holds[slot.value].status != Captured
    ensures Evolves(db, PlaceHold(db, slot, h))
  {
    hide Keyed;
    LotKeys(db, h.lot);
  }

  lemma CaptureEvolves(db: Db, i: nat, now: int)
    requires Keyed(db) && i < |db.holds| && db.holds[i].status == Held
    ensures Evolves(db, CaptureHold(db, i, now))
  {
    hide Keyed;
    HoldKeys(db, i);
  }

  lemma FreshHoldEvolves(db: Db, o: OrgId, s: SessionId, slot: Option<nat>, now: int)
    requires Keyed(db) && o in db.wallets && slot == FindHold(db.holds, s)
    requires slot.Some? ==> db.holds[slot.value].org == o && db.holds[slot.value].status == Released
    ensures Evolves(db, FreshHold(db, o, s, slot, now).db)
  {
    hide Keyed, Evolves, Swept, SelectRow, FindHold, PlaceHold;
    SweptEvolves(db, o, now);
    SlotStaysFree(db, o, s, now);
    ResolvedStay(db, o, now);
    var swept := Swept(db, o, now);
    var pick := SelectRow(swept, o, now);
    if pick.Some? {
      var h := Hold(o, s, pick.value, Held, now, now + TTL, None);
      PlaceEvolves(swept, slot, h);
      EvolvesTransitive(db, swept, PlaceHold(swept, slot, h));
    }
  }

  lemma ReserveEvolves(db: Db, o: OrgId, s: SessionId, now: int)
    requires Keyed(db)
    ensures Evolves(db, ReserveTx(db, o, s, now).db)
  {
    hide Keyed, FreshHold;
    var slot := FindHold(db.holds, s);
    if o in db.wallets && (slot.None? || (db.holds[slot.value].org == o && db.holds[slot.value].status == Released)) {
      hide Evolves;
      FreshHoldEvolves(db, o, s, slot, now);
    }
  }

  lemma SettleEvolves(db: Db, o: OrgId, s: SessionId, now: int)
    requires Keyed(db)
    ensures Evolves(db, CaptureTx(db, o, s, now).db)
    ensures Evolves(db, ReleaseTx(db, o, s, now).db)
  {
    hide Keyed, CaptureHold, ReleaseHold, ExpirySweep;
    var slot := FindHold(db.holds, s);
    if o in db.wallets && slot.Some? && db.holds[slot.value].org == o && db.holds[slot.value].status == Held {
      hide Evolves;
      CaptureEvolves(db, slot.value, now);
      var freed := ReleaseHold(db, slot.value, now);
      ReleaseEvolves(db, slot.value, now);
      ExpirySweepEvolves(freed, o, now);
      EvolvesTransitive(db, freed, ExpirySweep(freed, o, now));
    }
  }

  lemma ExitsEvolve(db: Db, r: nat, won: bool, refunded: int, charged: int, now: int)
    requires Keyed(db) && r < |db.lots|
    ensures Evolves(db, FreezeTx(db, r, now).db)
    ensures Evolves(db, ResolveTx(db, r, won, now).db)
    ensures Evolves(db, RefundTx(db, r, refunded, charged).db)
  {
    hide Keyed, ExpirySweep, MatchesUnconsumedProrata;
    LotKeys(db, r);
    if db.lots[r].lot.status == Frozen && won {
      var open := ReopenLot(db, r);
      assert Evolves(db, open);
      hide Evolves;
      ExpirySweepEvolves(open, db.lots[r].org, now);
      EvolvesTransitive(db, open, ExpirySweep(open, db.lots[r].org, now));
    }
  }

  lemma GrantsEvolve(db: Db, o: OrgId, now: int, days: int, lotId: int, g: GrantInput)
    requires Keyed(db)
    ensures Evolves(db, EnsureWalletTx(db, o, now, days, lotId).db)
    ensures Evolves(db, GrantTx(db, g).db)
  {
    hide Keyed, FindId, FindPayment, FirstConflict, Upper;
  }

  lemma ApplyEvolves(db: Db, step: Step)
    requires Keyed(db)
    ensures Evolves(db, Apply(db, step))
  {
    hide Keyed, EnsureWalletTx, GrantTx, ReserveTx, CaptureTx, ReleaseTx, FreezeTx, ResolveTx, RefundTx, ExpirySweep, Swept;
    match step
    case EnsureWallet(o, now, days, lotId) => GrantsEvolve(db, o, now, days, lotId, GrantInput(0, 0, 0, "", 0, 0, 0));
    case Grant(g) => GrantsEvolve(db, 0, 0, 0, 0, g);
    case ReserveFor(o, s, now) => ReserveEvolves(db, o, s, now);
    case CaptureFor(o, s, now) => SettleEvolves(db, o, s, now);
    case ReleaseFor(o, s, now) => SettleEvolves(db, o, s, now);
    case ReleaseExpired(o, now) => SweptEvolves(db, o, now);
    case ExpireDue(o, now) => ExpirySweepEvolves(db, o, now);
    case FreezeLot(r, now) => if r < |db.lots| { ExitsEvolve(db, r, true, 0, 0, now); }
    case ResolveDispute(r, won, now) => if r < |db.lots| { ExitsEvolve(db, r, won, 0, 0, now); }
    case RefundLot(r, refunded, charged) => if r < |db.lots| { ExitsEvolve(db, r, true, refunded, charged, 0); }
  }

  /** Over any run: nothing is un-captured, un-exhausted, un-expired, un-revoked, re-locked, removed or rewritten. */
  lemma {:induction false} RunEvolves(db: Db, steps: seq<Step>)
    requires Keyed(db)
    ensures Evolves(db, Run(db, steps))
  {
    hide Keyed, Apply;
    if steps != [] {
      var before := Run(db, steps[..|steps| - 1]);
      RunEvolves(db, steps[..|steps| - 1]);
      ApplyEvolves(before, steps[|steps| - 1]);
      hide Evolves;
      EvolvesTransitive(db, before, Run(db, steps));
    }
  }
}
