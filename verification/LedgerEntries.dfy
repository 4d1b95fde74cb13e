/** The signs and amounts of the ledger: what each kind of entry may say, in every entry that any run ever writes. */
module LedgerEntries {
  import opened Sums
  import opened CreditLots
  import opened LedgerModel
  import opened LedgerInvariant
  import opened LedgerRuns
  import opened LedgerHistory

  /** Grants add a whole lot of their kind, holds move one credit of one session, closings only ever take, reopenings only give. */
  predicate Lawful(row: LotRow, e: Entry) {
    match e.kind
    case FreeGrant => row.lot.kind == Free && e.delta == row.lot.granted && e.session.None?
    case PackPurchase => row.lot.kind == Paid && e.delta == row.lot.granted && e.session.None?
    case Reserve => e.delta == -1 && e.session.Some?
    case Release => e.delta == 1 && e.session.Some?
    case Consume => e.delta == 0 && e.session.Some?
    case Expire => e.delta <= 0 && (e.session.Some? ==> e.delta == -1)
    case DisputeFreeze => e.delta <= 0 && e.session.None?
    case DisputeRelease => e.delta >= 0 && e.session.None?
    case RefundReversal => e.delta <= 0 && e.session.None?
  }

  ghost predicate AllLawful(db: Db) {
    forall e | e in db.log :: e.lot < |db.lots| && Lawful(db.lots[e.lot], e)
  }

  /** Rows keep their kind and grant, so old entries stay lawful; only what was appended has to be looked at. */
  lemma AppendedLawful(a: Db, b: Db, added: seq<Entry>)
    requires AllLawful(a) && LotsEvolve(a.lots, b.lots) && b.log == a.log + added
    requires forall e | e in added :: e.lot < |b.lots| && Lawful(b.lots[e.lot], e)
    ensures AllLawful(b)
  {
    forall e | e in b.log ensures e.lot < |b.lots| && Lawful(b.lots[e.lot], e) {
      if e in a.log {
        assert RowEvolves(a.lots[e.lot], b.lots[e.lot]);
      } else {
        assert e in added;
      }
    }
  }

  // ---- single-row updates ----

  predicate Closing(kind: EntryKind) {
    kind == Expire || kind == DisputeFreeze || kind == RefundReversal
  }

  lemma CloseLawful(db: Db, r: nat, status: LotStatus, kind: EntryKind)
    requires Keyed(db) && AllLawful(db) && r < |db.lots| && db.lots[r].lot.status == Active && Closing(kind)
    requires CountsOk(db.lots[r].lot)
    ensures AllLawful(CloseLot(db, r, status, kind))
  {
    CloseEvolves(db, r, status, kind);
    LotKeys(db, r);
    hide Keyed, AllLawful;
    AppendedLawful(db, CloseLot(db, r, status, kind), [Entry(db.lots[r].org, r, kind, -AvailableInLot(db.lots[r].lot), None)]);
  }

  lemma ReopenLawful(db: Db, r: nat)
    requires Keyed(db) && AllLawful(db) && r < |db.lots| && db.lots[r].lot.status == Frozen && CountsOk(db.lots[r].lot)
    ensures AllLawful(ReopenLot(db, r))
  {
    LotKeys(db, r);
    hide Keyed, AllLawful;
    AppendedLawful(db, ReopenLot(db, r), [ReopeningEntry(db.lots[r], r)]);
  }

  lemma PlaceLawful(db: Db, slot: Option<nat>, h: Hold)
    requires Keyed(db) && AllLawful(db)
    requires h.lot < |db.lots| && h.org == db.lots[h.lot].org && FreeSlot(db, slot, h.session)
    ensures AllLawful(PlaceHold(db, slot, h))
  {
    LotKeys(db, h.lot);
    hide Keyed, AllLawful;
    AppendedLawful(db, PlaceHold(db, slot, h), [HoldEntry(h)]);
  }

  lemma CaptureLawful(db: Db, i: nat, now: int)
    requires Keyed(db) && AllLawful(db) && i < |db.holds| && db.holds[i].status == Held
    ensures AllLawful(CaptureHold(db, i, now))
  {
    CaptureEvolves(db, i, now);
    HoldKeys(db, i);
    hide Keyed, AllLawful;
    AppendedLawful(db, CaptureHold(db, i, now), [ConsumeEntry(db.holds[i])]);
  }

  lemma ReleaseLawful(db: Db, i: nat, now: int)
    requires Keyed(db) && AllLawful(db) && i < |db.holds| && db.holds[i].status == Held
    ensures AllLawful(ReleaseHold(db, i, now))
  {
    ReleaseEvolves(db, i, now);
    HoldKeys(db, i);
    hide Keyed, AllLawful;
    var e := ReleaseEntry(db.holds[i]);
    var added := if db.lots[db.holds[i].lot].lot.status == Active then [e] else [e, e.(kind := Expire, delta := -1)];
    assert ReleaseHold(db, i, now).log == db.log + added;
    AppendedLawful(db, ReleaseHold(db, i, now), added);
  }

  lemma AddLawful(db: Db, row: LotRow, kind: EntryKind)
    requires AllLawful(db) && row.org in db.wallets
    requires (kind == FreeGrant && row.lot.kind == Free) || (kind == PackPurchase && row.lot.kind == Paid)
    ensures AllLawful(AddLot(db, row, kind))
  {
    hide AllLawful;
    AppendedLawful(db, AddLot(db, row, kind), [AddEntry(db, row, kind)]);
  }

  lemma QuietLawful(a: Db, b: Db)
    requires AllLawful(a) && b.log == a.log && LotsEvolve(a.lots, b.lots)
    ensures AllLawful(b)
  {
    hide AllLawful;
    assert b.log == a.log + [];
    AppendedLawful(a, b, []);
  }

  // ---- sweeps and transactions ----

  lemma {:induction false} ExpiriesLawful(db: Db, due: seq<nat>, n: nat)
    requires Inv(db) && AllLawful(db) && OpenLots(db.lots, due) && n <= |due|
    ensures AllLawful(ExpireFirst(db, due, n))
  {
    hide Inv, Keyed, AllLawful, CloseLot, EntriesOk;
    InvKeyed(db);
    if n > 0 {
      ExpiriesLawful(db, due, n - 1);
      ExpiriesKeepInv(db, due, n - 1);
      StillOpen(db, due, n - 1);
      LotFacts(ExpireFirst(db, due, n - 1), due[n - 1]);
      hide OpenLots;
      CloseLawful(ExpireFirst(db, due, n - 1), due[n - 1], Expired, Expire);
    }
  }

  lemma {:induction false} ReleasesLawful(db: Db, due: seq<nat>, n: nat, now: int)
    requires Keyed(db) && AllLawful(db) && LiveHolds(db, due) && n <= |due|
    ensures AllLawful(ReleaseFirst(db, due, n, now))
  {
    hide Keyed, AllLawful, ReleaseHold;
    if n > 0 {
      ReleasesLawful(db, due, n - 1, now);
      StillLive(db, due, n - 1, now);
      hide LiveHolds;
      ReleaseLawful(ReleaseFirst(db, due, n - 1, now), due[n - 1], now);
    }
  }

  lemma ExpirySweepLawful(db: Db, o: OrgId, now: int)
    requires Inv(db) && AllLawful(db)
    ensures Keyed(db) && AllLawful(ExpirySweep(db, o, now))
  {
    hide AllLawful;
    var due := DueLots(db.lots, o, now);
    ExpiriesLawful(db, due, |due|);
  }

  lemma SweptLawful(db: Db, o: OrgId, now: int)
    requires Inv(db) && AllLawful(db)
    ensures Keyed(db) && AllLawful(Swept(db, o, now))
  {
    hide Inv, AllLawful, ReleaseFirst, ExpirySweep;
    InvKeyed(db);
    hide Keyed;
    var due := DueHolds(db.holds, o, now);
    ReleasesLawful(db, due, |due|, now);
    TtlSweepKeepsInv(db, o, now);
    ExpirySweepLawful(TtlSweep(db, o, now), o, now);
  }

  lemma ReserveLawful(db: Db, o: OrgId, s: SessionId, now: int)
    requires Inv(db) && AllLawful(db)
    ensures Keyed(db) && AllLawful(ReserveTx(db, o, s, now).db)
  {
    hide Inv, Keyed, AllLawful, Swept, SelectRow, FindHold, PlaceHold;
    InvKeyed(db);
    SweptLawful(db, o, now);
    SlotStaysFree(db, o, s, now);
    var swept := Swept(db, o, now);
    var slot := FindHold(db.holds, s);
    var pick := SelectRow(swept, o, now);
    if pick.Some? {
      PlaceLawful(swept, slot, Hold(o, s, pick.value, Held, now, now + TTL, None));
    }
    if slot.Some? {
      QuietLawful(db, SetHold(db, slot.value, db.holds[slot.value].(expiresAt := now + TTL)));
    }
  }

  lemma SettleLawful(db: Db, o: OrgId, s: SessionId, now: int)
    requires Inv(db) && AllLawful(db)
    ensures Keyed(db) && AllLawful(CaptureTx(db, o, s, now).db) && AllLawful(ReleaseTx(db, o, s, now).db)
  {
    hide Inv, Keyed, AllLawful, CaptureHold, ReleaseHold, ExpirySweep;
    InvKeyed(db);
    var slot := FindHold(db.holds, s);
    if slot.Some? && db.holds[slot.value].status == Held {
      CaptureLawful(db, slot.value, now);
      ReleaseLawful(db, slot.value, now);
      ReleaseKeepsInv(db, slot.value, now);
      ExpirySweepLawful(ReleaseHold(db, slot.value, now), o, now);
    }
  }

  lemma GrantsLawful(db: Db, o: OrgId, now: int, days: int, lotId: int, g: GrantInput)
    requires Keyed(db) && AllLawful(db)
    ensures AllLawful(EnsureWalletTx(db, o, now, days, lotId).db)
    ensures AllLawful(GrantTx(db, g).db)
  {
    hide Keyed, AllLawful, GrantTx, AddLot, Upper;
    if o !in db.wallets {
      var unlocked := db.(wallets := db.wallets[o := Wallet(0, 0, None)]);
      QuietLawful(db, unlocked);
      AddLawful(unlocked, FirstFiveRow(o, now, days, lotId), FreeGrant);
    }
    if GrantTx(db, g).db != db {
      GrantAdds(db, g);
      hide Addable;
      QuietLawful(db, Locked(db, g));
      AddLawful(Locked(db, g), PaidRow(g), PackPurchase);
    }
  }

  lemma FreezeLawful(db: Db, r: nat, now: int)
    requires Inv(db) && AllLawful(db) && r < |db.lots|
    ensures Keyed(db) && AllLawful(FreezeTx(db, r, now).db)
  {
    hide Inv, Keyed, AllLawful, CloseLot, EntriesOk;
    InvKeyed(db);
    LotFacts(db, r);
    if db.lots[r].lot.status == Active {
      var row := db.lots[r].(frozenAt := Some(now));
      QuietLotWriteKeepsInv(db, r, row);
      QuietLawful(db, db.(lots := db.lots[r := row]));
      CloseLawful(db.(lots := db.lots[r := row]), r, Frozen, DisputeFreeze);
    }
  }

  lemma ResolveLawful(db: Db, r: nat, won: bool, now: int)
    requires Inv(db) && AllLawful(db) && r < |db.lots|
    ensures Keyed(db) && AllLawful(ResolveTx(db, r, won, now).db)
  {
    hide Inv, Keyed, AllLawful, ReopenLot, ExpirySweep, EntriesOk;
    InvKeyed(db);
    LotFacts(db, r);
    if db.lots[r].lot.status == Frozen {
      if won {
        ReopenLawful(db, r);
        ReopenKeepsInv(db, r);
        ExpirySweepLawful(ReopenLot(db, r), db.lots[r].org, now);
      } else {
        QuietLawful(db, SetLot(db, r, db.lots[r].lot.(status := Revoked)));
      }
    }
  }

  lemma RefundLawful(db: Db, r: nat, refunded: int, charged: int)
    requires Inv(db) && AllLawful(db) && r < |db.lots|
    ensures Keyed(db) && AllLawful(RefundTx(db, r, refunded, charged).db)
  {
    hide Inv, Keyed, AllLawful, CloseLot, EntriesOk, MatchesUnconsumedProrata;
    InvKeyed(db);
    LotFacts(db, r);
    if db.lots[r].lot.status == Active {
      CloseLawful(db, r, Revoked, RefundReversal);
    }
  }

  lemma ApplyLawful(db: Db, step: Step)
    requires Inv(db) && AllLawful(db)
    ensures Keyed(db) && AllLawful(Apply(db, step))
  {
    hide Inv, Keyed, AllLawful, EnsureWalletTx, GrantTx, ReserveTx, CaptureTx, ReleaseTx;
    hide FreezeTx, ResolveTx, RefundTx, ExpirySweep, Swept;
    InvKeyed(db);
    match step
    case EnsureWallet(o, now, days, lotId) => GrantsLawful(db, o, now, days, lotId, GrantInput(0, 0, 0, "", 0, 0, 0));
    case Grant(g) => GrantsLawful(db, 0, 0, 0, 0, g);
    case ReserveFor(o, s, now) => ReserveLawful(db, o, s, now);
    case CaptureFor(o, s, now) => SettleLawful(db, o, s, now);
    case ReleaseFor(o, s, now) => SettleLawful(db, o, s, now);
    case ReleaseExpired(o, now) => SweptLawful(db, o, now);
    case ExpireDue(o, now) => ExpirySweepLawful(db, o, now);
    case FreezeLot(r, now) => if r < |db.lots| { FreezeLawful(db, r, now); }
    case ResolveDispute(r, won, now) => if r < |db.lots| { ResolveLawful(db, r, won, now); }
    case RefundLot(r, refunded, charged) => if r < |db.lots| { RefundLawful(db, r, refunded, charged); }
  }

  /** Every entry that any run ever writes obeys the sign and the amount of its kind. */
  lemma {:induction false} RunLawful(db: Db, steps: seq<Step>)
    requires Inv(db) && AllLawful(db)
    ensures Keyed(db) && AllLawful(Run(db, steps))
  {
    hide Inv, Keyed, AllLawful, Apply;
    InvKeyed(db);
    if steps != [] {
      var n := |steps| - 1;
      RunLawful(db, steps[..n]);
      RunKeepsInv(db, steps[..n]);
      ApplyLawful(Run(db, steps[..n]), steps[n]);
    }
  }
}
