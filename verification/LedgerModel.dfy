/**
 * The tables of the prepaid credit ledger and one function per transaction of
 * packages/billing/src/credit-ledger.ts. A transaction either commits (its new Db) or throws (the old Db).
 */
module LedgerModel {
  import opened Sums
  import opened CreditLots

  type OrgId = int
  type SessionId = int
  type PaymentId = int

  const FIRST_FIVE_CREDITS := 5
  const FIRST_FIVE_EXPIRY_DAYS := 30
  const PAID_CREDIT_EXPIRY_DAYS := 365
  const RESERVATION_TTL_HOURS := 1
  const DAY_MS := 24 * 60 * 60 * 1000
  const HOUR_MS := 60 * 60 * 1000
  const TTL := RESERVATION_TTL_HOURS * HOUR_MS

  datatype Wallet = Wallet(available: int, reserved: int, currency: Option<string>)

  /** A CreditLot row: the policy's snapshot plus the columns the policy never reads. */
  datatype LotRow = LotRow(
    org: OrgId,
    lot: Lot,
    unitAmountCents: Option<int>,
    currency: string,
    payment: Option<PaymentId>,
    frozenAt: Option<int>)

  datatype HoldStatus = Held | Captured | Released

  /** A CreditReservation row; lot is the row number of the lot it draws on. */
  datatype Hold = Hold(
    org: OrgId,
    session: SessionId,
    lot: nat,
    status: HoldStatus,
    heldAt: int,
    expiresAt: int,
    resolvedAt: Option<int>)

  datatype EntryKind =
    | FreeGrant | PackPurchase | Reserve | Release | Consume
    | Expire | DisputeFreeze | DisputeRelease | RefundReversal

  /** A CreditLedgerEntry row; delta is the signed change to available credits. */
  datatype Entry = Entry(org: OrgId, lot: nat, kind: EntryKind, delta: int, session: Option<SessionId>)

  datatype Db = Db(wallets: map<OrgId, Wallet>, lots: seq<LotRow>, holds: seq<Hold>, log: seq<Entry>)

  const EMPTY_DB := Db(map[], [], [], [])

  datatype Failure = MissingCreditWallet | ReservationOrganizationMismatch | InvalidPurchaseAmount | UniqueViolation

  datatype Attempt<+T> = Returned(value: T) | Thrown(error: Failure)

  datatype Tx<+T> = Tx(db: Db, out: Attempt<T>)

  /** The unique and foreign keys the schema enforces. */
  ghost predicate Keyed(db: Db) {
    && (forall r | 0 <= r < |db.lots| :: db.lots[r].org in db.wallets)
    && (forall i | 0 <= i < |db.holds| :: db.holds[i].lot < |db.lots| && db.lots[db.holds[i].lot].org == db.holds[i].org)
    && (forall q, r | 0 <= q < r < |db.lots| :: db.lots[q].lot.id != db.lots[r].lot.id)
    && (forall q, r | 0 <= q < r < |db.lots| ::
          db.lots[q].payment.Some? ==> db.lots[q].payment != db.lots[r].payment)
    && (forall i, j | 0 <= i < j < |db.holds| :: db.holds[i].session != db.holds[j].session)
  }

  /** No row is added or removed: the same wallets, as many lots, as many holds. */
  predicate SameShape(a: Db, b: Db) {
    a.wallets.Keys == b.wallets.Keys && |a.lots| == |b.lots| && |a.holds| == |b.holds|
  }

  // ---- lookups ----

  function FindHold(holds: seq<Hold>, s: SessionId): (r: Option<nat>)
    ensures r.Some? ==> r.value < |holds| && holds[r.value].session == s
    ensures r.None? ==> forall i | 0 <= i < |holds| :: holds[i].session != s
  {
    if holds == [] then None
    else if holds[|holds| - 1].session == s then Some(|holds| - 1)
    else FindHold(holds[..|holds| - 1], s)
  }

  function FindPayment(lots: seq<LotRow>, p: PaymentId): (r: Option<nat>)
    ensures r.Some? ==> r.value < |lots| && lots[r.value].payment == Some(p)
    ensures r.None? ==> forall i | 0 <= i < |lots| :: lots[i].payment != Some(p)
  {
    if lots == [] then None
    else if lots[|lots| - 1].payment == Some(p) then Some(|lots| - 1)
    else FindPayment(lots[..|lots| - 1], p)
  }

  function FindId(lots: seq<LotRow>, id: int): (r: Option<nat>)
    ensures r.Some? ==> r.value < |lots| && lots[r.value].lot.id == id
    ensures r.None? ==> forall i | 0 <= i < |lots| :: lots[i].lot.id != id
  {
    if lots == [] then None
    else if lots[|lots| - 1].lot.id == id then Some(|lots| - 1)
    else FindId(lots[..|lots| - 1], id)
  }

  /** The currency of the first paid lot of the organization that disagrees with the incoming one. */
  function FirstConflict(lots: seq<LotRow>, o: OrgId, incoming: string): (r: Option<string>)
    ensures r.None? <==> forall l | l in lots && l.org == o && l.lot.kind == Paid :: l.currency == incoming
    ensures r.Some? ==> r.value != incoming
  {
    if lots == [] then None
    else if lots[0].org == o && lots[0].lot.kind == Paid && lots[0].currency != incoming then Some(lots[0].currency)
    else
      assert lots == [lots[0]] + lots[1..];
      FirstConflict(lots[1..], o, incoming)
  }

  function UpperChar(c: char): char {
    if 'a' <= c <= 'z' then c - 'a' + 'A' else c
  }

  function Upper(s: string): (r: string)
    ensures |r| == |s|
    ensures forall i | 0 <= i < |s| :: r[i] == UpperChar(s[i])
  {
    if s == [] then [] else [UpperChar(s[0])] + Upper(s[1..])
  }

  predicate DueHold(h: Hold, o: OrgId, now: int) {
    h.org == o && h.status == Held && h.expiresAt <= now
  }

  /** Row numbers of the organization's due holds, in table order. */
  function DueHolds(holds: seq<Hold>, o: OrgId, now: int): (r: seq<nat>)
    ensures forall k | 0 <= k < |r| :: r[k] < |holds| && DueHold(holds[r[k]], o, now)
    ensures forall i | 0 <= i < |holds| && DueHold(holds[i], o, now) :: i in r
    ensures forall i, j | 0 <= i < j < |r| :: r[i] < r[j]
  {
    if holds == [] then []
    else
      var n := |holds| - 1;
      DueHolds(holds[..n], o, now) + (if DueHold(holds[n], o, now) then [n] else [])
  }

  predicate DueLot(row: LotRow, o: OrgId, now: int) {
    row.org == o && row.lot.status == Active && row.lot.expiresAt <= now
  }

  /** Row numbers of the organization's active lots past their expiry, in table order. */
  function DueLots(lots: seq<LotRow>, o: OrgId, now: int): (r: seq<nat>)
    ensures forall k | 0 <= k < |r| :: r[k] < |lots| && DueLot(lots[r[k]], o, now)
    ensures forall i | 0 <= i < |lots| && DueLot(lots[i], o, now) :: i in r
    ensures forall i, j | 0 <= i < j < |r| :: r[i] < r[j]
  {
    if lots == [] then []
    else
      var n := |lots| - 1;
      DueLots(lots[..n], o, now) + (if DueLot(lots[n], o, now) then [n] else [])
  }

  /** Snapshots of the organization's active lots, as loadLots reads them. */
  function ActiveLots(lots: seq<LotRow>, o: OrgId): (r: seq<Lot>)
    ensures forall l :: l in r <==>
              exists i :: 0 <= i < |lots| && lots[i].org == o && lots[i].lot.status == Active && lots[i].lot == l
  {
    if lots == [] then []
    else
      var n := |lots| - 1;
      ActiveLots(lots[..n], o) + (if lots[n].org == o && lots[n].lot.status == Active then [lots[n].lot] else [])
  }

  predicate CanServe(row: LotRow, o: OrgId, now: int) {
    row.org == o && Eligible(row.lot, now)
  }

  /** The row the reservation is taken on: the policy's choice, found again by its id. */
  function SelectRow(db: Db, o: OrgId, now: int): Option<nat> {
    var pick := SelectLotForReservation(ActiveLots(db.lots, o), now);
    if pick.None? then None else FindId(db.lots, pick.value.id)
  }

  /** Row r can serve the organization, and no row that can serve it goes before r. */
  ghost predicate BestRow(db: Db, o: OrgId, now: int, r: nat) {
    && r < |db.lots| && CanServe(db.lots[r], o, now)
    && forall q | 0 <= q < |db.lots| && CanServe(db.lots[q], o, now) :: Compare(db.lots[r].lot, db.lots[q].lot) <= 0
  }

  /** The id lookup finds exactly the row the policy chose, so the choice is the best row that can serve. */
  lemma SelectRowIsBest(db: Db, o: OrgId, now: int)
    requires Keyed(db)
    ensures SelectRow(db, o, now).None? <==> forall q | 0 <= q < |db.lots| :: !CanServe(db.lots[q], o, now)
    ensures SelectRow(db, o, now).Some? ==> BestRow(db, o, now, SelectRow(db, o, now).value)
  {
    var active := ActiveLots(db.lots, o);
    var pick := SelectLotForReservation(active, now);
    forall q | 0 <= q < |db.lots| && CanServe(db.lots[q], o, now) ensures db.lots[q].lot in active {
    }
    if pick.Some? {
      var q :| 0 <= q < |db.lots| && db.lots[q].org == o && db.lots[q].lot.status == Active && db.lots[q].lot == pick.value;
      var r := FindId(db.lots, pick.value.id);
      assert r.Some?;
      assert r.value == q;
    }
  }

  // ---- single-row updates ----

  function Adjust(db: Db, o: OrgId, available: int, reserved: int): Db
    requires o in db.wallets
  {
    var w := db.wallets[o];
    db.(wallets := db.wallets[o := w.(available := w.available + available, reserved := w.reserved + reserved)])
  }

  function SetLot(db: Db, r: nat, lot: Lot): Db
    requires r < |db.lots|
  {
    db.(lots := db.lots[r := db.lots[r].(lot := lot)])
  }

  function SetHold(db: Db, i: nat, h: Hold): Db
    requires i < |db.holds|
  {
    db.(holds := db.holds[i := h])
  }

  function Append(db: Db, e: Entry): Db {
    db.(log := db.log + [e])
  }

  /** A new lot, the entry that explains it, and the wallet credit. */
  function AddLot(db: Db, row: LotRow, kind: EntryKind): Db
    requires row.org in db.wallets
  {
    var e := Entry(row.org, |db.lots|, kind, row.lot.granted, None);
    Adjust(db.(lots := db.lots + [row], log := db.log + [e]), row.org, row.lot.granted, 0)
  }

  /** Ends an active lot: everything available in it, and nothing held on it, is written off. */
  function CloseLot(db: Db, r: nat, status: LotStatus, kind: EntryKind): (c: Db)
    requires Keyed(db) && r < |db.lots|
    ensures Keyed(c) && SameShape(db, c)
  {
    var row := db.lots[r];
    var n := AvailableInLot(row.lot);
    Adjust(Append(SetLot(db, r, row.lot.(status := status)), Entry(row.org, r, kind, -n, None)), row.org, -n, 0)
  }

  /** Reopens a frozen lot with what is available in it now. */
  function ReopenLot(db: Db, r: nat): (c: Db)
    requires Keyed(db) && r < |db.lots|
    ensures Keyed(c) && SameShape(db, c)
  {
    var row := db.lots[r];
    var n := AvailableInLot(row.lot);
    Adjust(Append(SetLot(db, r, row.lot.(status := Active)), Entry(row.org, r, DisputeRelease, n, None)), row.org, n, 0)
  }

  /** Where a session's hold is written: over its own row, or on a new one when it has none. */
  ghost predicate FreeSlot(db: Db, slot: Option<nat>, s: SessionId) {
    if slot.Some? then slot.value < |db.holds| && db.holds[slot.value].session == s
    else forall i | 0 <= i < |db.holds| :: db.holds[i].session != s
  }

  /** Hold h is placed on its lot, on a fresh row or over the released row of the same session. */
  function PlaceHold(db: Db, slot: Option<nat>, h: Hold): (c: Db)
    requires Keyed(db) && h.lot < |db.lots| && h.org == db.lots[h.lot].org && FreeSlot(db, slot, h.session)
    ensures Keyed(c)
  {
    var lot := db.lots[h.lot].lot;
    var held := SetLot(db, h.lot, lot.(reserved := lot.reserved + 1));
    var rows := if slot.Some? then held.holds[slot.value := h] else held.holds + [h];
    Adjust(Append(held.(holds := rows), Entry(h.org, h.lot, Reserve, -1, Some(h.session))), h.org, -1, 1)
  }

  function CapturedLot(lot: Lot): Lot {
    var moved := lot.(reserved := lot.reserved - 1, consumed := lot.consumed + 1);
    if moved.status == Active && moved.consumed >= moved.granted then moved.(status := Exhausted) else moved
  }

  function CaptureHold(db: Db, i: nat, now: int): (c: Db)
    requires Keyed(db) && i < |db.holds|
    ensures Keyed(c) && SameShape(db, c)
  {
    var h := db.holds[i];
    var moved := SetLot(db, h.lot, CapturedLot(db.lots[h.lot].lot));
    var done := SetHold(moved, i, h.(status := Captured, resolvedAt := Some(now)));
    Adjust(Append(done, Entry(h.org, h.lot, Consume, 0, Some(h.session))), h.org, 0, -1)
  }

  /** What releasing hold i adds to available credits: nothing when its lot is already closed. */
  function ReleaseDelta(db: Db, i: nat): int
    requires i < |db.holds| && db.holds[i].lot < |db.lots|
  {
    if db.lots[db.holds[i].lot].lot.status == Active then 1 else 0
  }

  /** Releases one hold, leaving the wallet to the caller; a closed lot gets the compensating entry. */
  function ReleaseRow(db: Db, i: nat, now: int): (c: Db)
    requires Keyed(db) && i < |db.holds|
    ensures Keyed(c) && SameShape(db, c)
  {
    var h := db.holds[i];
    var lot := db.lots[h.lot].lot;
    var freed := SetLot(db, h.lot, lot.(reserved := lot.reserved - 1));
    var done := SetHold(freed, i, h.(status := Released, resolvedAt := Some(now)));
    var back := Append(done, Entry(h.org, h.lot, Release, 1, Some(h.session)));
    if lot.status == Active then back
    else Append(back, Entry(h.org, h.lot, Expire, -1, Some(h.session)))
  }

  function ReleaseHold(db: Db, i: nat, now: int): (c: Db)
    requires Keyed(db) && i < |db.holds|
    ensures Keyed(c) && SameShape(db, c)
  {
    Adjust(ReleaseRow(db, i, now), db.holds[i].org, ReleaseDelta(db, i), -1)
  }

  // ---- sweeps ----

  /** The first n listed holds, released one by one. */
  function ReleaseFirst(db: Db, due: seq<nat>, n: nat, now: int): (r: Db)
    requires Keyed(db) && n <= |due|
    requires forall k | 0 <= k < n :: due[k] < |db.holds|
    ensures Keyed(r) && SameShape(db, r)
  {
    if n == 0 then db else ReleaseHold(ReleaseFirst(db, due, n - 1, now), due[n - 1], now)
  }

  function TtlSweep(db: Db, o: OrgId, now: int): (r: Db)
    requires Keyed(db)
    ensures Keyed(r) && SameShape(db, r)
  {
    var due := DueHolds(db.holds, o, now);
    ReleaseFirst(db, due, |due|, now)
  }

  /** The first n listed lots, expired one by one. */
  function ExpireFirst(db: Db, due: seq<nat>, n: nat): (r: Db)
    requires Keyed(db) && n <= |due|
    requires forall k | 0 <= k < n :: due[k] < |db.lots|
    ensures Keyed(r) && SameShape(db, r)
  {
    if n == 0 then db else CloseLot(ExpireFirst(db, due, n - 1), due[n - 1], Expired, Expire)
  }

  function ExpirySweep(db: Db, o: OrgId, now: int): (r: Db)
    requires Keyed(db)
    ensures Keyed(r) && SameShape(db, r)
  {
    var due := DueLots(db.lots, o, now);
    ExpireFirst(db, due, |due|)
  }

  /** The housekeeping of an admission: stale holds first, then due lots. */
  function Swept(db: Db, o: OrgId, now: int): (r: Db)
    requires Keyed(db)
    ensures Keyed(r) && SameShape(db, r)
  {
    ExpirySweep(TtlSweep(db, o, now), o, now)
  }

  // ---- transactions ----

  datatype GrantInput = GrantInput(
    org: OrgId, credits: int, unitAmountCents: int, currency: string, payment: PaymentId, now: int, lotId: int)

  datatype GrantOutcome = Granted(lot: nat) | AlreadyGranted | CurrencyMismatch(walletCurrency: string, sessionCurrency: string)
  datatype ReserveOutcome = ReserveOk(hold: nat) | NoCreditsAvailable
  datatype CaptureOutcome = CaptureDone | AlreadyCaptured | NothingToCapture
  datatype ReleaseOutcome = ReleaseDone | AlreadyResolved | NothingToRelease
  datatype Adjustment =
    | Applied(lot: nat, credits: int)
    | AlreadyApplied(lot: nat, status: LotStatus)
    | NoLot
    | NeedsAdmin(lot: nat, reason: string)

  function FirstFiveRow(o: OrgId, now: int, days: int, lotId: int): LotRow {
    LotRow(o, Lot(lotId, Free, Active, FIRST_FIVE_CREDITS, 0, 0, now, now + days * DAY_MS), None, "EUR", None, None)
  }

  /** The locked half of ensureWallet. The unlocked pre-check only ever skips it when it would change nothing. */
  function EnsureWalletTx(db: Db, o: OrgId, now: int, days: int, lotId: int): (r: Tx<()>)
    requires Keyed(db)
    ensures Keyed(r.db)
  {
    if o in db.wallets then Tx(db, Returned(()))
    else if FindId(db.lots, lotId).Some? then Tx(db, Thrown(UniqueViolation))
    else
      Tx(AddLot(db.(wallets := db.wallets[o := Wallet(0, 0, None)]), FirstFiveRow(o, now, days, lotId), FreeGrant),
         Returned(()))
  }

  function PaidRow(g: GrantInput): LotRow {
    LotRow(g.org,
           Lot(g.lotId, Paid, Active, g.credits, 0, 0, g.now, g.now + PAID_CREDIT_EXPIRY_DAYS * DAY_MS),
           Some(g.unitAmountCents), Upper(g.currency), Some(g.payment), None)
  }

  predicate ValidAmounts(g: GrantInput) {
    g.credits > 0 && g.unitAmountCents >= 0
  }

  /** The currency the wallet is held to: its lock, or a legacy paid lot that disagrees with this purchase. */
  function CurrencyConflict(db: Db, g: GrantInput): Option<string>
    requires g.org in db.wallets
  {
    var lock := db.wallets[g.org].currency;
    if lock.None? then FirstConflict(db.lots, g.org, Upper(g.currency))
    else if lock.value != Upper(g.currency) then lock
    else None
  }

  function GrantTx(db: Db, g: GrantInput): (r: Tx<GrantOutcome>)
    requires Keyed(db)
    ensures Keyed(r.db)
  {
    if !ValidAmounts(g) then Tx(db, Thrown(InvalidPurchaseAmount))
    else if g.org !in db.wallets then Tx(db, Thrown(MissingCreditWallet))
    else
      var existing := FindPayment(db.lots, g.payment);
      if existing.Some? then
        if db.lots[existing.value].org == g.org then Tx(db, Returned(AlreadyGranted))
        else Tx(db, Thrown(UniqueViolation))
      else
        var conflict := CurrencyConflict(db, g);
        if conflict.Some? then Tx(db, Returned(CurrencyMismatch(conflict.value, Upper(g.currency))))
        else if FindId(db.lots, g.lotId).Some? then Tx(db, Thrown(UniqueViolation))
        else
          var w := db.wallets[g.org].(currency := Some(Upper(g.currency)));
          Tx(AddLot(db.(wallets := db.wallets[g.org := w]), PaidRow(g), PackPurchase), Returned(Granted(|db.lots|)))
  }

  /** The sweeps and the fresh hold of a session that has neither a live hold nor a captured one. */
  function FreshHold(db: Db, o: OrgId, s: SessionId, slot: Option<nat>, now: int): (r: Tx<ReserveOutcome>)
    requires Keyed(db) && o in db.wallets && slot == FindHold(db.holds, s)
    ensures Keyed(r.db)
  {
    var swept := Swept(db, o, now);
    var pick := SelectRow(swept, o, now);
    if pick.None? then Tx(swept, Returned(NoCreditsAvailable))
    else
      var h := Hold(o, s, pick.value, Held, now, now + TTL, None);
      SlotStaysFree(db, o, s, now);
      Tx(PlaceHold(swept, slot, h), Returned(ReserveOk(if slot.Some? then slot.value else |swept.holds|)))
  }

  /** Reserving for the session would look for a credit: it has no hold of the organization, or a released one. */
  predicate NeedsFreshHold(db: Db, o: OrgId, s: SessionId) {
    var slot := FindHold(db.holds, s);
    slot.None? || (db.holds[slot.value].org == o && db.holds[slot.value].status == Released)
  }

  function ReserveTx(db: Db, o: OrgId, s: SessionId, now: int): (r: Tx<ReserveOutcome>)
    requires Keyed(db)
    ensures Keyed(r.db)
  {
    if o !in db.wallets then Tx(db, Thrown(MissingCreditWallet))
    else
      var slot := FindHold(db.holds, s);
      if slot.None? then FreshHold(db, o, s, slot, now)
      else
        var h := db.holds[slot.value];
        if h.org != o then Tx(db, Thrown(ReservationOrganizationMismatch))
        else if h.status == Captured then Tx(db, Returned(ReserveOk(slot.value)))
        else if h.status == Held then
          Tx(SetHold(db, slot.value, h.(expiresAt := now + TTL)), Returned(ReserveOk(slot.value)))
        else FreshHold(db, o, s, slot, now)
  }

  function CaptureTx(db: Db, o: OrgId, s: SessionId, now: int): (r: Tx<CaptureOutcome>)
    requires Keyed(db)
    ensures Keyed(r.db)
  {
    if o !in db.wallets then Tx(db, Thrown(MissingCreditWallet))
    else
      var slot := FindHold(db.holds, s);
      if slot.None? || db.holds[slot.value].org != o then Tx(db, Returned(NothingToCapture))
      else if db.holds[slot.value].status == Captured then Tx(db, Returned(AlreadyCaptured))
      else if db.holds[slot.value].status != Held then Tx(db, Returned(NothingToCapture))
      else Tx(CaptureHold(db, slot.value, now), Returned(CaptureDone))
  }

  function ReleaseTx(db: Db, o: OrgId, s: SessionId, now: int): (r: Tx<ReleaseOutcome>)
    requires Keyed(db)
    ensures Keyed(r.db)
  {
    if o !in db.wallets then Tx(db, Thrown(MissingCreditWallet))
    else
      var slot := FindHold(db.holds, s);
      if slot.None? || db.holds[slot.value].org != o then Tx(db, Returned(NothingToRelease))
      else if db.holds[slot.value].status != Held then Tx(db, Returned(AlreadyResolved))
      else
        Tx(ExpirySweep(ReleaseHold(db, slot.value, now), o, now), Returned(ReleaseDone))
  }

  /** releaseExpiredReservations: the TTL sweep, then the expiry sweep. */
  function ReleaseExpiredTx(db: Db, o: OrgId, now: int): (r: Tx<nat>)
    requires Keyed(db)
    ensures Keyed(r.db)
  {
    if o !in db.wallets then Tx(db, Thrown(MissingCreditWallet))
    else Tx(Swept(db, o, now), Returned(|DueHolds(db.holds, o, now)|))
  }

  function ExpireDueTx(db: Db, o: OrgId, now: int): (r: Tx<seq<nat>>)
    requires Keyed(db)
    ensures Keyed(r.db)
  {
    if o !in db.wallets then Tx(db, Thrown(MissingCreditWallet))
    else Tx(ExpirySweep(db, o, now), Returned(DueLots(db.lots, o, now)))
  }

  // The three money-exit transitions work on a row located before the lock was taken.

  function FreezeTx(db: Db, r: nat, now: int): (t: Tx<Adjustment>)
    requires Keyed(db) && r < |db.lots|
    ensures Keyed(t.db)
  {
    var lot := db.lots[r].lot;
    if lot.status == Exhausted then Tx(db, Returned(NeedsAdmin(r, "dispute_after_consumption")))
    else if lot.status != Active then Tx(db, Returned(AlreadyApplied(r, lot.status)))
    else
      var stamped := db.(lots := db.lots[r := db.lots[r].(frozenAt := Some(now))]);
      Tx(CloseLot(stamped, r, Frozen, DisputeFreeze), Returned(Applied(r, AvailableInLot(lot))))
  }

  function ResolveTx(db: Db, r: nat, won: bool, now: int): (t: Tx<Adjustment>)
    requires Keyed(db) && r < |db.lots|
    ensures Keyed(t.db)
  {
    var lot := db.lots[r].lot;
    if lot.status != Frozen then Tx(db, Returned(AlreadyApplied(r, lot.status)))
    else if !won then Tx(SetLot(db, r, lot.(status := Revoked)), Returned(Applied(r, 0)))
    else Tx(ExpirySweep(ReopenLot(db, r), db.lots[r].org, now), Returned(Applied(r, AvailableInLot(lot))))
  }

  /** The published pro-rata rule: the refund is the price of every unconsumed credit, to within a cent. */
  predicate MatchesUnconsumedProrata(unitAmountCents: Option<int>, granted: int, revocable: int, refunded: int) {
    && unitAmountCents.Some? && unitAmountCents.value > 0 && granted > 0
    && revocable > 0
    && (var unit := unitAmountCents.value as real / granted as real;
        && -1.0 <= refunded as real - revocable as real * unit <= 1.0
        && Round(refunded as real / unit) == revocable)
  }

  /** JavaScript's Math.round. */
  function Round(x: real): int {
    (x + 0.5).Floor
  }

  function RefundTx(db: Db, r: nat, refunded: int, charged: int): (t: Tx<Adjustment>)
    requires Keyed(db) && r < |db.lots|
    ensures Keyed(t.db)
  {
    var row := db.lots[r];
    var n := AvailableInLot(row.lot);
    if row.lot.status == Exhausted then Tx(db, Returned(NeedsAdmin(r, "full_refund_after_consumption")))
    else if row.lot.status != Active then Tx(db, Returned(AlreadyApplied(r, row.lot.status)))
    else if refunded >= charged && row.lot.consumed > 0 then
      Tx(db, Returned(NeedsAdmin(r, "full_refund_after_consumption")))
    else if refunded < charged && !MatchesUnconsumedProrata(row.unitAmountCents, row.lot.granted, n, refunded) then
      Tx(db, Returned(NeedsAdmin(r, "partial_refund_not_prorata")))
    else Tx(CloseLot(db, r, Revoked, RefundReversal), Returned(Applied(r, n)))
  }

  // ---- sweeps never change who a row belongs to ----

  predicate SameSessions(a: Db, b: Db) {
    |a.holds| == |b.holds| && forall i | 0 <= i < |a.holds| :: a.holds[i].session == b.holds[i].session
  }

  lemma {:induction false} ReleasesKeepSessions(db: Db, due: seq<nat>, n: nat, now: int)
    requires Keyed(db) && n <= |due|
    requires forall k | 0 <= k < n :: due[k] < |db.holds|
    ensures SameSessions(db, ReleaseFirst(db, due, n, now))
  {
    hide Keyed;
    if n > 0 {
      ReleasesKeepSessions(db, due, n - 1, now);
    }
  }

  lemma {:induction false} ExpiriesKeepHolds(db: Db, due: seq<nat>, n: nat)
    requires Keyed(db) && n <= |due|
    requires forall k | 0 <= k < n :: due[k] < |db.lots|
    ensures ExpireFirst(db, due, n).holds == db.holds
  {
    hide Keyed;
    if n > 0 {
      ExpiriesKeepHolds(db, due, n - 1);
    }
  }

  lemma SweepsKeepSessions(db: Db, o: OrgId, now: int)
    requires Keyed(db)
    ensures SameSessions(db, Swept(db, o, now))
  {
    var due := DueHolds(db.holds, o, now);
    ReleasesKeepSessions(db, due, |due|, now);
    var freed := TtlSweep(db, o, now);
    var dueLots := DueLots(freed.lots, o, now);
    ExpiriesKeepHolds(freed, dueLots, |dueLots|);
  }

  predicate PickIsOurs(db: Db, o: OrgId, now: int) {
    var pick := SelectRow(db, o, now);
    pick.Some? ==> pick.value < |db.lots| && db.lots[pick.value].org == o
  }

  /** After the sweeps the chosen row is the organization's own and the session's slot is where it was. */
  lemma SlotStaysFree(db: Db, o: OrgId, s: SessionId, now: int)
    requires Keyed(db)
    ensures FreeSlot(Swept(db, o, now), FindHold(db.holds, s), s)
    ensures PickIsOurs(Swept(db, o, now), o, now)
  {
    hide Keyed, Swept, SelectRow, FindHold;
    SelectRowIsBest(Swept(db, o, now), o, now);
    SweepsKeepSessions(db, o, now);
    SlotMoves(db.holds, Swept(db, o, now).holds, s);
  }

  /** Where the session's row is, or that it has none, is a matter of the sessions alone. */
  lemma SlotMoves(a: seq<Hold>, b: seq<Hold>, s: SessionId)
    requires |a| == |b| && forall i | 0 <= i < |a| :: a[i].session == b[i].session
    ensures var slot := FindHold(a, s);
            if slot.Some? then slot.value < |b| && b[slot.value].session == s
            else forall i | 0 <= i < |b| :: b[i].session != s
  {
  }
}
