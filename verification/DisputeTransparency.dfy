/**
 * A dispute that is won leaves no trace in the balances. Two runs of the same steps, one with the lot frozen before and
 * unfrozen after, one with no dispute at all, end with equal wallets. Anything may run in between, for any organization,
 * but for two things: exits on the disputed lot itself, and fresh holds that would have drawn on the blocked credits.
 */
module DisputeTransparency {
  import opened Sums
  import opened CreditLots
  import opened LedgerModel
  import opened LedgerInvariant
  import opened LedgerRuns
  import opened LedgerHistory
  import opened SweepConfluence

  /** The owner of the disputed lot reads a clock no later than the resolution. */
  predicate Timely(db: Db, o: OrgId, now: int, d: nat, until: int) {
    d < |db.lots| && (o == db.lots[d].org ==> now <= until)
  }

  /** The reservation needs a fresh hold, and row d is the one it would take. */
  ghost predicate DrawsOn(db: Db, o: OrgId, s: SessionId, now: int, d: nat)
    requires Keyed(db)
  {
    o in db.wallets && NeedsFreshHold(db, o, s) && SelectRow(Swept(db, o, now), o, now) == Some(d)
  }

  /** The step is no exit on row d and no draw on it, and the owner's clock stays within the dispute. */
  ghost predicate Undisturbing(db: Db, step: Step, d: nat, until: int)
    requires Keyed(db)
  {
    match step
    case EnsureWallet(_, _, _, _) => true
    case Grant(_) => true
    case ReserveFor(o, s, now) => NeedsFreshHold(db, o, s) ==> Timely(db, o, now, d, until) && !DrawsOn(db, o, s, now, d)
    case CaptureFor(_, _, _) => true
    case ReleaseFor(o, _, now) => Timely(db, o, now, d, until)
    case ReleaseExpired(o, now) => Timely(db, o, now, d, until)
    case ExpireDue(o, now) => Timely(db, o, now, d, until)
    case FreezeLot(r, _) => r != d
    case ResolveDispute(r, _, now) => r != d && (r < |db.lots| ==> Timely(db, db.lots[r].org, now, d, until))
    case RefundLot(r, _, _) => r != d
  }

  /** Every step of the run without a dispute is undisturbing in the state it runs in. */
  ghost predicate UndisturbingRun(db: Db, steps: seq<Step>, d: nat, until: int)
    requires Keyed(db)
  {
    forall k: nat | k < |steps| :: Undisturbing(Run(db, steps[..k]), steps[k], d, until)
  }

  /** Only the owner of a lot can draw on it. */
  lemma OthersNeverDraw(db: Db, o: OrgId, s: SessionId, now: int, d: nat)
    requires Keyed(db) && d < |db.lots| && o != db.lots[d].org
    ensures !DrawsOn(db, o, s, now, d)
  {
    hide Keyed, Swept, SelectRow;
    SweptEvolves(db, o, now);
    assert RowEvolves(db.lots[d], Swept(db, o, now).lots[d]);
    SelectRowIsBest(Swept(db, o, now), o, now);
  }

  /** The row without its status and its freeze stamp. */
  function Veiled(row: LotRow): LotRow {
    row.(frozenAt := None, lot := row.lot.(status := Active))
  }

  /** frozen is the disputed row; free is the same row in the run without a dispute. */
  predicate RowsMatch(frozen: LotRow, free: LotRow, until: int) {
    && Veiled(frozen) == Veiled(free)
    && frozen.lot.status == Frozen
    && (free.lot.status == Active || free.lot.status == Exhausted
        || (free.lot.status == Expired && free.lot.expiresAt <= until))
  }

  /** The same holds, and the same lots but for row d. */
  ghost predicate SameBut(a: Db, b: Db, d: nat, until: int) {
    && a.holds == b.holds
    && |a.lots| == |b.lots| && d < |a.lots|
    && (forall r: nat | r < |a.lots| && r != d :: a.lots[r] == b.lots[r])
    && RowsMatch(a.lots[d], b.lots[d], until)
  }

  ghost predicate Match(a: Db, b: Db, d: nat, until: int) {
    SameCurrencies(a, b) && SameBut(a, b, d, until)
  }

  lemma FreezeMatches(db: Db, d: nat, at: int, until: int)
    requires Keyed(db) && d < |db.lots| && db.lots[d].lot.status == Active
    ensures Match(FreezeTx(db, d, at).db, db, d, until)
  {
    LotKeys(db, d);
    hide Keyed;
  }

  lemma SweptCurrencies(a: Db, b: Db, c: Db, d: Db)
    requires SameCurrencies(a, b) && SameCurrencies(a, c) && SameCurrencies(b, d)
    ensures SameCurrencies(c, d)
  {
    forall o | o in c.wallets ensures o in d.wallets && c.wallets[o].currency == d.wallets[o].currency {
      assert o in c.wallets.Keys && o in a.wallets.Keys && o in b.wallets.Keys && o in d.wallets.Keys;
    }
    assert c.wallets.Keys == d.wallets.Keys;
  }

  // ---- each step keeps the two runs matched ----

  lemma ExpirySweepMatches(a: Db, b: Db, d: nat, until: int, o: OrgId, now: int)
    requires Keyed(a) && Keyed(b) && Match(a, b, d, until) && Timely(a, o, now, d, until)
    ensures Match(ExpirySweep(a, o, now), ExpirySweep(b, o, now), d, until)
  {
    hide Keyed, SameCurrencies, SameBut, ExpirySweep;
    ExpirySweepSameBut(a, b, d, until, o, now);
    SweepsKeepCurrencies(a, o, now);
    SweepsKeepCurrencies(b, o, now);
    SweptCurrencies(a, b, ExpirySweep(a, o, now), ExpirySweep(b, o, now));
  }

  lemma ExpirySweepSameBut(a: Db, b: Db, d: nat, until: int, o: OrgId, now: int)
    requires Keyed(a) && Keyed(b) && SameBut(a, b, d, until) && Timely(a, o, now, d, until)
    ensures SameBut(ExpirySweep(a, o, now), ExpirySweep(b, o, now), d, until)
  {
    hide Keyed, ExpirySweep;
    ExpirySweepRows(a, o, now);
    ExpirySweepRows(b, o, now);
  }

  lemma TtlSweepMatches(a: Db, b: Db, d: nat, until: int, o: OrgId, now: int)
    requires Keyed(a) && Keyed(b) && Match(a, b, d, until)
    ensures Match(TtlSweep(a, o, now), TtlSweep(b, o, now), d, until)
  {
    hide Keyed, SameCurrencies, SameBut, TtlSweep;
    TtlSweepSameBut(a, b, d, until, o, now);
    SweepsKeepCurrencies(a, o, now);
    SweepsKeepCurrencies(b, o, now);
    SweptCurrencies(a, b, TtlSweep(a, o, now), TtlSweep(b, o, now));
  }

  lemma TtlSweepSameBut(a: Db, b: Db, d: nat, until: int, o: OrgId, now: int)
    requires Keyed(a) && Keyed(b) && SameBut(a, b, d, until)
    ensures SameBut(TtlSweep(a, o, now), TtlSweep(b, o, now), d, until)
  {
    hide Keyed, StaleOn, TtlSweep;
    TtlSweepRows(a, o, now);
    TtlSweepRows(b, o, now);
  }

  lemma TtlSweepKeepsOwner(a: Db, d: nat, o: OrgId, now: int)
    requires Keyed(a) && d < |a.lots|
    ensures d < |TtlSweep(a, o, now).lots| && TtlSweep(a, o, now).lots[d].org == a.lots[d].org
  {
    hide Keyed, StaleOn;
    TtlSweepRows(a, o, now);
    hide TtlSweep;
  }

  lemma SweptMatches(a: Db, b: Db, d: nat, until: int, o: OrgId, now: int)
    requires Keyed(a) && Keyed(b) && Match(a, b, d, until) && Timely(a, o, now, d, until)
    ensures Match(Swept(a, o, now), Swept(b, o, now), d, until)
  {
    hide Keyed, Match, TtlSweep, ExpirySweep;
    TtlSweepMatches(a, b, d, until, o, now);
    TtlSweepKeepsOwner(a, d, o, now);
    ExpirySweepMatches(TtlSweep(a, o, now), TtlSweep(b, o, now), d, until, o, now);
  }

  lemma CaptureMatches(a: Db, b: Db, d: nat, until: int, i: nat, now: int)
    requires Keyed(a) && Keyed(b) && Match(a, b, d, until) && i < |a.holds|
    ensures Match(CaptureHold(a, i, now), CaptureHold(b, i, now), d, until)
  {
    HoldKeys(a, i);
    HoldKeys(b, i);
    hide Keyed;
  }

  lemma ReleaseMatches(a: Db, b: Db, d: nat, until: int, i: nat, now: int)
    requires Keyed(a) && Keyed(b) && Match(a, b, d, until) && i < |a.holds|
    ensures Match(ReleaseHold(a, i, now), ReleaseHold(b, i, now), d, until)
    ensures d < |ReleaseHold(a, i, now).lots| && ReleaseHold(a, i, now).lots[d].org == a.lots[d].org
  {
    hide Keyed;
    HoldKeys(a, i);
    HoldKeys(b, i);
    ReleaseRows(a, i, now);
    ReleaseRows(b, i, now);
    AdjustKeepsCurrencies(ReleaseRow(a, i, now), a.holds[i].org, ReleaseDelta(a, i), -1);
    AdjustKeepsCurrencies(ReleaseRow(b, i, now), b.holds[i].org, ReleaseDelta(b, i), -1);
    hide ReleaseHold;
  }

  lemma AdjustKeepsCurrencies(db: Db, o: OrgId, available: int, reserved: int)
    requires o in db.wallets
    ensures SameCurrencies(db, Adjust(db, o, available, reserved))
  {
  }

  /** The columns that lookups read. */
  ghost predicate SameColumns(a: seq<LotRow>, b: seq<LotRow>) {
    |a| == |b| && forall r: nat | r < |a| ::
      && a[r].org == b[r].org && a[r].payment == b[r].payment && a[r].currency == b[r].currency
      && a[r].lot.id == b[r].lot.id && a[r].lot.kind == b[r].lot.kind
  }

  lemma {:induction false} SameFinds(a: seq<LotRow>, b: seq<LotRow>, p: PaymentId, id: int)
    requires SameColumns(a, b)
    ensures FindPayment(a, p) == FindPayment(b, p) && FindId(a, id) == FindId(b, id)
  {
    if a != [] {
      SameFinds(a[..|a| - 1], b[..|b| - 1], p, id);
    }
  }

  lemma {:induction false} SameConflict(a: seq<LotRow>, b: seq<LotRow>, o: OrgId, currency: string)
    requires SameColumns(a, b)
    ensures FirstConflict(a, o, currency) == FirstConflict(b, o, currency)
  {
    if a != [] {
      SameConflict(a[1..], b[1..], o, currency);
    }
  }

  lemma MatchedColumns(a: Db, b: Db, d: nat, until: int)
    requires Match(a, b, d, until)
    ensures SameColumns(a.lots, b.lots)
  {
    assert Veiled(a.lots[d]) == Veiled(b.lots[d]);
  }

  lemma AddLotMatches(a: Db, b: Db, d: nat, until: int, row: LotRow, kind: EntryKind)
    requires Match(a, b, d, until) && row.org in a.wallets && row.org in b.wallets
    ensures Match(AddLot(a, row, kind), AddLot(b, row, kind), d, until)
  {
  }

  lemma OpenWalletMatches(a: Db, b: Db, d: nat, until: int, o: OrgId, w: Wallet, v: Wallet)
    requires Match(a, b, d, until) && w.currency == v.currency
    ensures Match(a.(wallets := a.wallets[o := w]), b.(wallets := b.wallets[o := v]), d, until)
  {
  }

  lemma EnsureWalletMatches(a: Db, b: Db, d: nat, until: int, o: OrgId, now: int, days: int, lotId: int)
    requires Keyed(a) && Keyed(b) && Match(a, b, d, until)
    ensures Match(EnsureWalletTx(a, o, now, days, lotId).db, EnsureWalletTx(b, o, now, days, lotId).db, d, until)
  {
    hide Keyed, FindId, AddLot;
    MatchedColumns(a, b, d, until);
    SameFinds(a.lots, b.lots, 0, lotId);
    assert o in a.wallets.Keys <==> o in b.wallets.Keys;
    if o !in a.wallets {
      var w := Wallet(0, 0, None);
      OpenWalletMatches(a, b, d, until, o, w, w);
      hide Match;
      AddLotMatches(a.(wallets := a.wallets[o := w]), b.(wallets := b.wallets[o := w]), d, until,
                    FirstFiveRow(o, now, days, lotId), FreeGrant);
    }
  }

  lemma GrantMatches(a: Db, b: Db, d: nat, until: int, g: GrantInput)
    requires Keyed(a) && Keyed(b) && Match(a, b, d, until)
    ensures Match(GrantTx(a, g).db, GrantTx(b, g).db, d, until)
  {
    hide Keyed, FindId, FindPayment, FirstConflict, Upper, AddLot;
    MatchedColumns(a, b, d, until);
    SameFinds(a.lots, b.lots, g.payment, g.lotId);
    SameConflict(a.lots, b.lots, g.org, Upper(g.currency));
    assert g.org in a.wallets.Keys <==> g.org in b.wallets.Keys;
    if g.org in a.wallets {
      OpenWalletMatches(a, b, d, until, g.org, Locked(a, g).wallets[g.org], Locked(b, g).wallets[g.org]);
      AddLotMatches(Locked(a, g), Locked(b, g), d, until, PaidRow(g), PackPurchase);
    }
  }

  /** A row that is best without d is best with d frozen, and the other way round unless d itself was best. */
  lemma SameBest(a: Db, b: Db, d: nat, until: int, o: OrgId, now: int, p: nat, q: nat)
    requires Match(a, b, d, until) && BestRow(a, o, now, p) && BestRow(b, o, now, q) && q != d
    ensures a.lots[p].lot.id == b.lots[q].lot.id && p < |b.lots| && b.lots[p].lot.id == b.lots[q].lot.id
  {
    hide SameCurrencies;
    assert p != d;
    assert CanServe(b.lots[p], o, now) && CanServe(a.lots[q], o, now);
    CompareIsTotalOrder(a.lots[p].lot, b.lots[q].lot, b.lots[q].lot);
  }

  lemma UniqueIds(db: Db, p: nat, q: nat)
    requires Keyed(db) && p < |db.lots| && q < |db.lots| && db.lots[p].lot.id == db.lots[q].lot.id
    ensures p == q
  {
  }

  lemma NoneToServe(a: Db, b: Db, d: nat, until: int, o: OrgId, now: int)
    requires Match(a, b, d, until)
    requires forall r | 0 <= r < |b.lots| :: !CanServe(b.lots[r], o, now)
    ensures forall r | 0 <= r < |a.lots| :: !CanServe(a.lots[r], o, now)
  {
    hide SameCurrencies;
    forall r | 0 <= r < |a.lots| ensures !CanServe(a.lots[r], o, now) {
      assert r != d ==> a.lots[r] == b.lots[r];
    }
  }

  /** Unless the run without a dispute takes row d, both runs take the same row. */
  lemma SameChoice(a: Db, b: Db, d: nat, until: int, o: OrgId, now: int)
    requires Keyed(a) && Keyed(b) && Match(a, b, d, until) && SelectRow(b, o, now) != Some(d)
    ensures SelectRow(a, o, now) == SelectRow(b, o, now)
  {
    hide Keyed, SelectRow, CanServe;
    SelectRowIsBest(a, o, now);
    SelectRowIsBest(b, o, now);
    var p, q := SelectRow(a, o, now), SelectRow(b, o, now);
    if q.None? {
      NoneToServe(a, b, d, until, o, now);
    } else if p.None? {
      assert false;
    } else {
      hide BestRow, Match;
      SameBest(a, b, d, until, o, now, p.value, q.value);
      UniqueIds(b, p.value, q.value);
    }
  }

  lemma PlaceMatches(a: Db, b: Db, d: nat, until: int, slot: Option<nat>, h: Hold)
    requires Keyed(a) && Keyed(b) && Match(a, b, d, until) && h.lot != d
    requires h.lot < |a.lots| && h.org == a.lots[h.lot].org && FreeSlot(a, slot, h.session)
    ensures h.lot < |b.lots| && h.org == b.lots[h.lot].org && FreeSlot(b, slot, h.session)
    ensures Match(PlaceHold(a, slot, h), PlaceHold(b, slot, h), d, until)
  {
    hide Keyed, SameCurrencies, RowsMatch;
    LotKeys(a, h.lot);
    LotKeys(b, h.lot);
    assert a.lots[h.lot] == b.lots[h.lot];
    PlaceKeepsCurrencies(a, slot, h);
    PlaceKeepsCurrencies(b, slot, h);
    SweptCurrencies(a, b, PlaceHold(a, slot, h), PlaceHold(b, slot, h));
    PlacedRows(a, slot, h);
    PlacedRows(b, slot, h);
    hide PlaceHold;
  }

  lemma PlaceKeepsCurrencies(db: Db, slot: Option<nat>, h: Hold)
    requires Keyed(db) && h.lot < |db.lots| && h.org == db.lots[h.lot].org && FreeSlot(db, slot, h.session)
    ensures SameCurrencies(db, PlaceHold(db, slot, h))
  {
    LotKeys(db, h.lot);
    hide Keyed, FreeSlot;
  }

  lemma PlacedRows(db: Db, slot: Option<nat>, h: Hold)
    requires Keyed(db) && h.lot < |db.lots| && h.org == db.lots[h.lot].org && FreeSlot(db, slot, h.session)
    ensures PlaceHold(db, slot, h).holds == if slot.Some? then db.holds[slot.value := h] else db.holds + [h]
    ensures PlaceHold(db, slot, h).lots ==
            db.lots[h.lot := db.lots[h.lot].(lot := db.lots[h.lot].lot.(reserved := db.lots[h.lot].lot.reserved + 1))]
  {
    hide Keyed;
  }

  lemma FreshHoldMatches(a: Db, b: Db, d: nat, until: int, o: OrgId, s: SessionId, slot: Option<nat>, now: int)
    requires Keyed(a) && Keyed(b) && Match(a, b, d, until) && Timely(b, o, now, d, until)
    requires o in a.wallets && o in b.wallets && slot == FindHold(a.holds, s)
    requires SelectRow(Swept(b, o, now), o, now) != Some(d)
    ensures Match(FreshHold(a, o, s, slot, now).db, FreshHold(b, o, s, slot, now).db, d, until)
  {
    hide Keyed, Swept, SelectRow, FindHold, PlaceHold, SameCurrencies, RowsMatch;
    SameOwner(a, b, d, until);
    SweptMatches(a, b, d, until, o, now);
    SlotStaysFree(a, o, s, now);
    SlotStaysFree(b, o, s, now);
    SameChoice(Swept(a, o, now), Swept(b, o, now), d, until, o, now);
    var pick := SelectRow(Swept(a, o, now), o, now);
    if pick.Some? {
      PlaceMatches(Swept(a, o, now), Swept(b, o, now), d, until, slot, Hold(o, s, pick.value, Held, now, now + TTL, None));
    }
  }

  lemma SameOwner(a: Db, b: Db, d: nat, until: int)
    requires Match(a, b, d, until)
    ensures |a.lots| == |b.lots| && a.holds == b.holds && forall r: nat | r < |a.lots| :: a.lots[r].org == b.lots[r].org
  {
    assert Veiled(a.lots[d]).org == Veiled(b.lots[d]).org;
  }

  lemma ReserveMatches(a: Db, b: Db, d: nat, until: int, o: OrgId, s: SessionId, now: int)
    requires Keyed(a) && Keyed(b) && Match(a, b, d, until)
    requires NeedsFreshHold(b, o, s) ==> Timely(b, o, now, d, until) && !DrawsOn(b, o, s, now, d)
    ensures Match(ReserveTx(a, o, s, now).db, ReserveTx(b, o, s, now).db, d, until)
  {
    hide Keyed, FreshHold, Swept, SelectRow;
    assert o in a.wallets.Keys <==> o in b.wallets.Keys;
    if o in a.wallets && NeedsFreshHold(b, o, s) {
      FreshHoldMatches(a, b, d, until, o, s, FindHold(a.holds, s), now);
    }
  }

  lemma CloseMatches(a: Db, b: Db, d: nat, until: int, r: nat, status: LotStatus, kind: EntryKind)
    requires Keyed(a) && Keyed(b) && Match(a, b, d, until) && r < |a.lots| && r != d
    ensures Match(CloseLot(a, r, status, kind), CloseLot(b, r, status, kind), d, until)
  {
    LotKeys(a, r);
    LotKeys(b, r);
    hide Keyed, RowsMatch;
  }

  lemma WriteMatches(a: Db, b: Db, d: nat, until: int, r: nat, row: LotRow)
    requires Match(a, b, d, until) && r < |a.lots| && r != d
    ensures Match(a.(lots := a.lots[r := row]), b.(lots := b.lots[r := row]), d, until)
  {
    hide RowsMatch;
  }

  lemma ReopenMatches(a: Db, b: Db, d: nat, until: int, r: nat)
    requires Keyed(a) && Keyed(b) && Match(a, b, d, until) && r < |a.lots| && r != d
    ensures Match(ReopenLot(a, r), ReopenLot(b, r), d, until)
    ensures d < |ReopenLot(a, r).lots| && ReopenLot(a, r).lots[d].org == a.lots[d].org
  {
    LotKeys(a, r);
    LotKeys(b, r);
    hide Keyed, RowsMatch;
  }

  lemma StampKeepsKeys(db: Db, r: nat, at: int)
    requires Keyed(db) && r < |db.lots|
    ensures Keyed(db.(lots := db.lots[r := db.lots[r].(frozenAt := Some(at))]))
  {
  }

  lemma SameRow(a: Db, b: Db, d: nat, until: int, r: nat)
    requires Match(a, b, d, until) && r < |a.lots| && r != d
    ensures r < |b.lots| && a.lots[r] == b.lots[r]
  {
  }

  lemma FreezeElsewhereMatches(a: Db, b: Db, d: nat, until: int, r: nat, now: int)
    requires Keyed(a) && Keyed(b) && Match(a, b, d, until) && r < |a.lots| && r != d
    ensures r < |b.lots| && Match(FreezeTx(a, r, now).db, FreezeTx(b, r, now).db, d, until)
  {
    hide Keyed, Match, CloseLot;
    SameRow(a, b, d, until, r);
    var row := a.lots[r].(frozenAt := Some(now));
    StampKeepsKeys(a, r, now);
    StampKeepsKeys(b, r, now);
    WriteMatches(a, b, d, until, r, row);
    CloseMatches(a.(lots := a.lots[r := row]), b.(lots := b.lots[r := row]), d, until, r, Frozen, DisputeFreeze);
  }

  lemma ResolveElsewhereMatches(a: Db, b: Db, d: nat, until: int, r: nat, won: bool, now: int)
    requires Keyed(a) && Keyed(b) && Match(a, b, d, until) && r < |a.lots| && r != d
    requires Timely(a, a.lots[r].org, now, d, until)
    ensures r < |b.lots| && Match(ResolveTx(a, r, won, now).db, ResolveTx(b, r, won, now).db, d, until)
  {
    hide Keyed, Match, ReopenLot, ExpirySweep;
    SameRow(a, b, d, until, r);
    WriteMatches(a, b, d, until, r, a.lots[r].(lot := a.lots[r].lot.(status := Revoked)));
    ReopenMatches(a, b, d, until, r);
    ExpirySweepMatches(ReopenLot(a, r), ReopenLot(b, r), d, until, a.lots[r].org, now);
  }

  lemma RefundElsewhereMatches(a: Db, b: Db, d: nat, until: int, r: nat, refunded: int, charged: int)
    requires Keyed(a) && Keyed(b) && Match(a, b, d, until) && r < |a.lots| && r != d
    ensures r < |b.lots| && Match(RefundTx(a, r, refunded, charged).db, RefundTx(b, r, refunded, charged).db, d, until)
  {
    hide Keyed, Match, CloseLot, MatchesUnconsumedProrata;
    SameRow(a, b, d, until, r);
    CloseMatches(a, b, d, until, r, Revoked, RefundReversal);
  }

  lemma ApplyMatches(a: Db, b: Db, d: nat, until: int, step: Step)
    requires Keyed(a) && Keyed(b) && Match(a, b, d, until) && Undisturbing(b, step, d, until)
    ensures Match(Apply(a, step), Apply(b, step), d, until)
  {
    hide Keyed, ReleaseHold, CaptureHold, ExpirySweep, TtlSweep, RowsMatch, Swept, SameCurrencies;
    hide EnsureWalletTx, GrantTx, ReserveTx, FreezeTx, ResolveTx, RefundTx;
    assert a.wallets.Keys == b.wallets.Keys by { WalletKeysMatch(a, b); }
    SameOwner(a, b, d, until);
    match step
    case EnsureWallet(o, now, days, lotId) => EnsureWalletMatches(a, b, d, until, o, now, days, lotId);
    case Grant(g) => GrantMatches(a, b, d, until, g);
    case ReserveFor(o, s, now) => ReserveMatches(a, b, d, until, o, s, now);
    case CaptureFor(o, s, now) =>
      var slot := FindHold(a.holds, s);
      if slot.Some? {
        CaptureMatches(a, b, d, until, slot.value, now);
      }
    case ReleaseFor(o, s, now) =>
      var slot := FindHold(a.holds, s);
      if slot.Some? {
        ReleaseMatches(a, b, d, until, slot.value, now);
        ExpirySweepMatches(ReleaseHold(a, slot.value, now), ReleaseHold(b, slot.value, now), d, until, o, now);
      }
    case ReleaseExpired(o, now) => SweptMatches(a, b, d, until, o, now);
    case ExpireDue(o, now) => ExpirySweepMatches(a, b, d, until, o, now);
    case FreezeLot(r, now) => if r < |a.lots| { FreezeElsewhereMatches(a, b, d, until, r, now); }
    case ResolveDispute(r, won, now) => if r < |a.lots| { ResolveElsewhereMatches(a, b, d, until, r, won, now); }
    case RefundLot(r, refunded, charged) =>
      if r < |a.lots| { RefundElsewhereMatches(a, b, d, until, r, refunded, charged); }
  }

  lemma WalletKeysMatch(a: Db, b: Db)
    requires SameCurrencies(a, b)
    ensures a.wallets.Keys == b.wallets.Keys
  {
  }

  lemma {:induction false} RunMatches(a: Db, b: Db, d: nat, until: int, steps: seq<Step>)
    requires Keyed(a) && Keyed(b) && Match(a, b, d, until) && UndisturbingRun(b, steps, d, until)
    ensures Match(Run(a, steps), Run(b, steps), d, until)
  {
    hide Keyed, Match, Apply, Undisturbing;
    if steps != [] {
      var n := |steps| - 1;
      forall k: nat | k < n ensures Undisturbing(Run(b, steps[..n][..k]), steps[..n][k], d, until) {
        assert steps[..n][..k] == steps[..k];
      }
      RunMatches(a, b, d, until, steps[..n]);
      ApplyMatches(Run(a, steps[..n]), Run(b, steps[..n]), d, until, steps[n]);
    }
  }

  /** The two rows after the resolution: equal but for a lot spent to its last credit, which only the other run exhausts. */
  predicate Settled(disputed: LotRow, free: LotRow) {
    && Veiled(disputed) == Veiled(free)
    && (disputed.lot.status == free.lot.status
        || (free.lot.status == Exhausted && AvailableInLot(free.lot) == 0
            && (disputed.lot.status == Active || disputed.lot.status == Expired)))
  }

  lemma ReopenRows(db: Db, d: nat)
    requires Keyed(db) && d < |db.lots|
    ensures ReopenLot(db, d).holds == db.holds
    ensures ReopenLot(db, d).lots == db.lots[d := db.lots[d].(lot := db.lots[d].lot.(status := Active))]
  {
    LotKeys(db, d);
    hide Keyed;
  }

  lemma WonRowSettles(a: Db, b: Db, d: nat, until: int)
    requires Keyed(a) && Keyed(b) && Match(a, b, d, until) && CountsOk(b.lots[d].lot)
    ensures var won, calm := ResolveTx(a, d, true, until).db, ExpirySweep(b, b.lots[d].org, until);
            && |won.lots| == |calm.lots| && d < |won.lots| && won.holds == calm.holds
            && Settled(won.lots[d], calm.lots[d])
            && forall r: nat | r < |won.lots| && r != d :: won.lots[r] == calm.lots[r]
  {
    hide Keyed, ReopenLot, ExpirySweep;
    ReopenRows(a, d);
    var o := a.lots[d].org;
    var won, calm := ExpirySweep(ReopenLot(a, d), o, until), ExpirySweep(b, o, until);
    ExpirySweepRows(ReopenLot(a, d), o, until);
    ExpirySweepRows(b, o, until);
    assert ResolveTx(a, d, true, until).db == won;
    hide ResolveTx;
    forall r: nat | r < |won.lots| && r != d ensures won.lots[r] == calm.lots[r] {
      assert a.lots[r] == b.lots[r];
    }
  }

  /** Rows that settle alike carry the same spendable and reserved credits in every wallet. */
  lemma SettledBalances(a: Db, b: Db, d: nat, o: OrgId)
    requires Inv(a) && Inv(b) && o in a.wallets && o in b.wallets
    requires |a.lots| == |b.lots| && d < |a.lots| && Settled(a.lots[d], b.lots[d])
    requires forall r: nat | r < |a.lots| && r != d :: a.lots[r] == b.lots[r]
    ensures a.wallets[o].available == b.wallets[o].available && a.wallets[o].reserved == b.wallets[o].reserved
  {
    assert WalletOk(a, o) && WalletOk(b, o);
    hide Inv;
    assert SpendableIn(a.lots[d].lot) == SpendableIn(b.lots[d].lot);
    SumPointwise(a.lots, b.lots, Spendable(o), Spendable(o));
    SumPointwise(a.lots, b.lots, ReservedIn(o), ReservedIn(o));
  }

  lemma SameWallets(a: Db, b: Db, d: nat)
    requires Inv(a) && Inv(b) && SameCurrencies(a, b)
    requires |a.lots| == |b.lots| && d < |a.lots| && Settled(a.lots[d], b.lots[d])
    requires forall r: nat | r < |a.lots| && r != d :: a.lots[r] == b.lots[r]
    ensures a.wallets == b.wallets
  {
    hide Inv, Settled;
    forall o | o in a.wallets ensures o in b.wallets && a.wallets[o] == b.wallets[o] {
      assert o in a.wallets.Keys && o in b.wallets.Keys;
      SettledBalances(a, b, d, o);
    }
    forall o | o in b.wallets ensures o in a.wallets {
      assert o in b.wallets.Keys && o in a.wallets.Keys;
    }
  }

  /** A won dispute and a quiet sweep both leave the currencies of every wallet alone. */
  lemma EndCurrencies(a: Db, b: Db, d: nat, until: int)
    requires Keyed(a) && Keyed(b) && Match(a, b, d, until)
    ensures SameCurrencies(ResolveTx(a, d, true, until).db, ExpirySweep(b, b.lots[d].org, until))
  {
    hide Keyed, ExpirySweep;
    var o := a.lots[d].org;
    LotKeys(a, d);
    var open := ReopenLot(a, d);
    assert SameCurrencies(a, open);
    hide ReopenLot;
    SweepsKeepCurrencies(open, o, until);
    SweepsKeepCurrencies(b, o, until);
    hide SameCurrencies;
    SweptCurrencies(a, b, open, b) by { ReflexiveCurrencies(b); }
    SweptCurrencies(open, b, ExpirySweep(open, o, until), ExpirySweep(b, o, until));
  }

  lemma ReflexiveCurrencies(db: Db)
    ensures SameCurrencies(db, db)
  {
  }

  /**
   * For any undisturbing steps between the freeze and the won resolution, every wallet, every hold and every lot's
   * granted, consumed and reserved counts equal those of the run without the dispute, once it is swept at the same clock.
   */
  lemma WonDisputeIsTransparent(db: Db, d: nat, frozenAt: int, wonAt: int, steps: seq<Step>)
    requires Inv(db) && d < |db.lots| && db.lots[d].lot.status == Active
    requires UndisturbingRun(db, steps, d, wonAt)
    ensures Keyed(db) && d < |Run(FreezeTx(db, d, frozenAt).db, steps).lots|
    ensures var won := ResolveTx(Run(FreezeTx(db, d, frozenAt).db, steps), d, true, wonAt).db;
            var calm := ExpirySweep(Run(db, steps), db.lots[d].org, wonAt);
            && won.wallets == calm.wallets && won.holds == calm.holds
            && |won.lots| == |calm.lots| && d < |won.lots|
            && (forall r: nat | r < |won.lots| && r != d :: won.lots[r] == calm.lots[r])
            && Settled(won.lots[d], calm.lots[d])
  {
    hide Inv, Keyed, FreezeTx, Run, ResolveTx, ExpirySweep, Settled, UndisturbingRun, SameCurrencies;
    InvKeyed(db);
    var frozen := FreezeTx(db, d, frozenAt).db;
    FreezeKeepsInv(db, d, frozenAt);
    FreezeMatches(db, d, frozenAt, wonAt);
    RunMatches(frozen, db, d, wonAt, steps);
    RunKeepsInv(frozen, steps);
    RunKeepsInv(db, steps);
    var a, b := Run(frozen, steps), Run(db, steps);
    RunEvolves(db, steps);
    assert RowEvolves(db.lots[d], b.lots[d]);
    LotFacts(b, d);
    ResolveKeepsInv(a, d, true, wonAt);
    ExpirySweepKeepsInv(b, b.lots[d].org, wonAt);
    WonRowSettles(a, b, d, wonAt);
    EndCurrencies(a, b, d, wonAt);
    SameWallets(ResolveTx(a, d, true, wonAt).db, ExpirySweep(b, b.lots[d].org, wonAt), d);
  }
}
