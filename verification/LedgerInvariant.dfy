/**
 * What every ledger transaction keeps: the stored counters agree with the lots, with the holds and with
 * the append-only log, for every wallet, every lot and every session.
 */
module LedgerInvariant {
  import opened Sums
  import opened CreditLots
  import opened LedgerModel

  // ---- contributions of a row to the sums the invariant compares ----

  /** What a lot adds to spendable credits: its available balance while its status is active. */
  function SpendableIn(lot: Lot): int {
    if lot.status == Active then AvailableInLot(lot) else 0
  }

  ghost function Spendable(o: OrgId): LotRow -> int {
    (l: LotRow) => if l.org == o then SpendableIn(l.lot) else 0
  }

  ghost function ReservedIn(o: OrgId): LotRow -> int {
    (l: LotRow) => if l.org == o then l.lot.reserved else 0
  }

  ghost function HeldFor(o: OrgId): Hold -> int {
    (h: Hold) => if h.org == o && h.status == Held then 1 else 0
  }

  ghost function HeldOn(r: nat): Hold -> int {
    (h: Hold) => if h.lot == r && h.status == Held then 1 else 0
  }

  ghost function CapturedOn(r: nat): Hold -> int {
    (h: Hold) => if h.lot == r && h.status == Captured then 1 else 0
  }

  ghost function CapturedBy(s: SessionId): Hold -> int {
    (h: Hold) => if h.session == s && h.status == Captured then 1 else 0
  }

  ghost function TakenBy(s: SessionId): Hold -> int {
    (h: Hold) => if h.session == s && h.status != Released then 1 else 0
  }

  function DeltaOf(o: OrgId): Entry -> int {
    (e: Entry) => if e.org == o then e.delta else 0
  }

  ghost function DeltaOn(r: nat): Entry -> int {
    (e: Entry) => if e.lot == r then e.delta else 0
  }

  ghost function ConsumesOf(s: SessionId): Entry -> int {
    (e: Entry) => if e.session == Some(s) && e.kind == Consume then 1 else 0
  }

  /** Reserve entries of the session minus its release entries. */
  ghost function NetReservesOf(s: SessionId): Entry -> int {
    (e: Entry) =>
      if e.session != Some(s) then 0
      else if e.kind == Reserve then 1
      else if e.kind == Release then -1
      else 0
  }

  /** Dispute freezes of the lot minus its dispute releases. */
  ghost function NetFreezesOn(r: nat): Entry -> int {
    (e: Entry) =>
      if e.lot != r then 0
      else if e.kind == DisputeFreeze then 1
      else if e.kind == DisputeRelease then -1
      else 0
  }

  ghost function RefundsOn(r: nat): Entry -> int {
    (e: Entry) => if e.lot == r && e.kind == RefundReversal then 1 else 0
  }

  ghost function PurchasesOn(r: nat): Entry -> int {
    (e: Entry) => if e.lot == r && e.kind == PackPurchase then 1 else 0
  }

  // ---- the invariant ----

  ghost predicate WalletOk(db: Db, o: OrgId)
    requires o in db.wallets
  {
    var w := db.wallets[o];
    && w.available == Sum(db.lots, Spendable(o))
    && w.available == Sum(db.log, DeltaOf(o))
    && w.reserved == Sum(db.lots, ReservedIn(o))
    && w.reserved == Sum(db.holds, HeldFor(o))
  }

  /** Consumed and held credits never exceed the grant, and an exhausted lot is entirely consumed. */
  predicate CountsOk(lot: Lot) {
    && 0 <= lot.consumed && 0 <= lot.reserved && 0 < lot.granted
    && lot.consumed + lot.reserved <= lot.granted
    && (lot.status == Exhausted ==> lot.consumed == lot.granted)
  }

  /** The lot's counters count exactly the live and the captured holds on it. */
  ghost predicate TallyOk(holds: seq<Hold>, r: nat, lot: Lot) {
    && lot.reserved == Sum(holds, HeldOn(r))
    && lot.consumed == Sum(holds, CapturedOn(r))
  }

  /** The entries that name the lot explain its balance, its purchase and its exits. */
  ghost predicate EntriesOk(log: seq<Entry>, r: nat, lot: Lot) {
    && Sum(log, DeltaOn(r)) == SpendableIn(lot)
    && Sum(log, PurchasesOn(r)) == (if lot.kind == Paid then 1 else 0)
    && ExitsOk(log, r, lot.status)
  }

  /** One open exit for a frozen or revoked lot, none for any other; a refund is final. */
  ghost predicate ExitsOk(log: seq<Entry>, r: nat, status: LotStatus) {
    var refunds, freezes := Sum(log, RefundsOn(r)), Sum(log, NetFreezesOn(r));
    && refunds >= 0 && freezes >= 0
    && refunds + freezes == (if status == Frozen || status == Revoked then 1 else 0)
    && (refunds == 1 ==> status == Revoked)
    && Alternates(log, r)
  }

  /** In every prefix of the log the lot's dispute entries alternate, a freeze first. */
  ghost predicate Alternates(log: seq<Entry>, r: nat) {
    forall n | 0 <= n <= |log| :: 0 <= SumTo(log, n, NetFreezesOn(r)) <= 1
  }

  /** A paid lot names its payment and carries the currency its wallet is locked to, if it is locked. */
  ghost predicate PaidOk(wallets: map<OrgId, Wallet>, row: LotRow) {
    && (row.payment.Some? <==> row.lot.kind == Paid)
    && (row.lot.kind == Paid && row.org in wallets && wallets[row.org].currency.Some? ==>
          row.currency == wallets[row.org].currency.value)
  }

  ghost predicate SessionOk(db: Db, s: SessionId) {
    && Sum(db.log, ConsumesOf(s)) == Sum(db.holds, CapturedBy(s))
    && Sum(db.log, NetReservesOf(s)) == Sum(db.holds, TakenBy(s))
  }

  ghost predicate LogKeyed(db: Db) {
    forall e | e in db.log :: e.lot < |db.lots| && e.org == db.lots[e.lot].org
  }

  ghost predicate LotsOk(db: Db) {
    && (forall r: nat | r < |db.lots| :: CountsOk(db.lots[r].lot))
    && (forall r: nat | r < |db.lots| :: TallyOk(db.holds, r, db.lots[r].lot))
    && (forall r: nat | r < |db.lots| :: EntriesOk(db.log, r, db.lots[r].lot))
    && (forall r: nat | r < |db.lots| :: PaidOk(db.wallets, db.lots[r]))
  }

  ghost predicate WalletsOk(db: Db) {
    forall o | o in db.wallets :: WalletOk(db, o)
  }

  ghost predicate SessionsOk(db: Db) {
    forall s: SessionId :: SessionOk(db, s)
  }

  ghost predicate Inv(db: Db) {
    && Keyed(db)
    && LogKeyed(db)
    && LotsOk(db)
    && WalletsOk(db)
    && SessionsOk(db)
  }

  lemma EmptyIsOk()
    ensures Inv(EMPTY_DB)
  {
  }

  // ---- how written rows move the sums ----

  /** What one operation does to the books: the organization, lot and session it touches, and by how much. */
  datatype Effect = Effect(
    org: OrgId, lot: nat, session: Option<SessionId>,
    delta: int, purchases: int, refunds: int, freezes: int, consumes: int, reserves: int)

  ghost function EffectOf(e: Entry): Effect {
    Effect(e.org, e.lot, e.session, e.delta,
           if e.kind == PackPurchase then 1 else 0,
           if e.kind == RefundReversal then 1 else 0,
           if e.kind == DisputeFreeze then 1 else if e.kind == DisputeRelease then -1 else 0,
           if e.kind == Consume then 1 else 0,
           if e.kind == Reserve then 1 else if e.kind == Release then -1 else 0)
  }

  ghost predicate LogGrew(a: seq<Entry>, b: seq<Entry>, x: Effect) {
    && (forall o :: Sum(b, DeltaOf(o)) == Sum(a, DeltaOf(o)) + (if o == x.org then x.delta else 0))
    && (forall r: nat :: Sum(b, DeltaOn(r)) == Sum(a, DeltaOn(r)) + (if r == x.lot then x.delta else 0))
    && (forall r: nat :: Sum(b, PurchasesOn(r)) == Sum(a, PurchasesOn(r)) + (if r == x.lot then x.purchases else 0))
    && (forall r: nat :: Sum(b, RefundsOn(r)) == Sum(a, RefundsOn(r)) + (if r == x.lot then x.refunds else 0))
    && (forall r: nat :: Sum(b, NetFreezesOn(r)) == Sum(a, NetFreezesOn(r)) + (if r == x.lot then x.freezes else 0))
    && (forall s :: Sum(b, ConsumesOf(s)) == Sum(a, ConsumesOf(s)) + (if x.session == Some(s) then x.consumes else 0))
    && (forall s :: Sum(b, NetReservesOf(s)) == Sum(a, NetReservesOf(s)) + (if x.session == Some(s) then x.reserves else 0))
    && (forall r: nat | Alternates(a, r) && 0 <= Sum(b, NetFreezesOn(r)) <= 1 :: Alternates(b, r))
    && (forall e | e in b :: e in a || (e.org == x.org && e.lot == x.lot))
  }

  /** What the grown log says about one lot. */
  lemma GrewAt(a: seq<Entry>, b: seq<Entry>, x: Effect, r: nat)
    requires LogGrew(a, b, x)
    ensures var n := if r == x.lot then 1 else 0;
            && Sum(b, DeltaOn(r)) == Sum(a, DeltaOn(r)) + n * x.delta
            && Sum(b, PurchasesOn(r)) == Sum(a, PurchasesOn(r)) + n * x.purchases
            && Sum(b, RefundsOn(r)) == Sum(a, RefundsOn(r)) + n * x.refunds
            && Sum(b, NetFreezesOn(r)) == Sum(a, NetFreezesOn(r)) + n * x.freezes
    ensures Alternates(a, r) && 0 <= Sum(b, NetFreezesOn(r)) <= 1 ==> Alternates(b, r)
  {
  }

  lemma AlternatesOn(log: seq<Entry>, e: Entry, r: nat)
    requires Alternates(log, r) && 0 <= Sum(log + [e], NetFreezesOn(r)) <= 1
    ensures Alternates(log + [e], r)
  {
    forall n | 0 <= n <= |log + [e]| ensures 0 <= SumTo(log + [e], n, NetFreezesOn(r)) <= 1 {
      if n <= |log| {
        SumToPointwise(log + [e], log, n, NetFreezesOn(r), NetFreezesOn(r));
      }
    }
  }

  lemma Logged(log: seq<Entry>, e: Entry)
    ensures LogGrew(log, log + [e], EffectOf(e))
  {
    forall o { SumAppend(log, e, DeltaOf(o)); }
    forall r: nat { SumAppend(log, e, DeltaOn(r)); }
    forall r: nat { SumAppend(log, e, PurchasesOn(r)); }
    forall r: nat { SumAppend(log, e, RefundsOn(r)); }
    forall r: nat { SumAppend(log, e, NetFreezesOn(r)); }
    forall s { SumAppend(log, e, ConsumesOf(s)); }
    forall s { SumAppend(log, e, NetReservesOf(s)); }
    forall r: nat | Alternates(log, r) && 0 <= Sum(log + [e], NetFreezesOn(r)) <= 1 ensures Alternates(log + [e], r) {
      AlternatesOn(log, e, r);
    }
  }

  /** The release and its compensating expiry, on a lot that is already closed. */
  lemma LoggedPair(log: seq<Entry>, e: Entry)
    requires e.kind == Release
    ensures LogGrew(log, log + [e] + [e.(kind := Expire, delta := -e.delta)], EffectOf(e).(delta := 0))
  {
    var f := e.(kind := Expire, delta := -e.delta);
    Logged(log, e);
    Logged(log + [e], f);
    forall r: nat | Alternates(log, r) && 0 <= Sum(log + [e] + [f], NetFreezesOn(r)) <= 1
      ensures Alternates(log + [e] + [f], r)
    {
      assert Alternates(log + [e], r);
    }
  }

  ghost predicate LotsMoved(a: seq<LotRow>, b: seq<LotRow>, o: OrgId, spendable: int, reserved: int) {
    && (forall p :: Sum(b, Spendable(p)) == Sum(a, Spendable(p)) + (if p == o then spendable else 0))
    && (forall p :: Sum(b, ReservedIn(p)) == Sum(a, ReservedIn(p)) + (if p == o then reserved else 0))
  }

  lemma LotWritten(lots: seq<LotRow>, r: nat, row: LotRow)
    requires r < |lots| && row.org == lots[r].org
    ensures LotsMoved(lots, lots[r := row], row.org,
                      SpendableIn(row.lot) - SpendableIn(lots[r].lot), row.lot.reserved - lots[r].lot.reserved)
  {
    forall p { SumUpdate(lots, r, row, Spendable(p)); }
    forall p { SumUpdate(lots, r, row, ReservedIn(p)); }
  }

  lemma LotAdded(lots: seq<LotRow>, row: LotRow)
    ensures LotsMoved(lots, lots + [row], row.org, SpendableIn(row.lot), row.lot.reserved)
  {
    forall p { SumAppend(lots, row, Spendable(p)); }
    forall p { SumAppend(lots, row, ReservedIn(p)); }
  }

  ghost predicate HoldsMoved(a: seq<Hold>, b: seq<Hold>, o: OrgId, r: nat, s: Option<SessionId>, held: int, captured: int) {
    && (forall p :: Sum(b, HeldFor(p)) == Sum(a, HeldFor(p)) + (if p == o then held else 0))
    && (forall q: nat :: Sum(b, HeldOn(q)) == Sum(a, HeldOn(q)) + (if q == r then held else 0))
    && (forall q: nat :: Sum(b, CapturedOn(q)) == Sum(a, CapturedOn(q)) + (if q == r then captured else 0))
    && (forall t :: Sum(b, CapturedBy(t)) == Sum(a, CapturedBy(t)) + (if s == Some(t) then captured else 0))
    && (forall t :: Sum(b, TakenBy(t)) == Sum(a, TakenBy(t)) + (if s == Some(t) then held + captured else 0))
  }

  function Live(h: Hold): int {
    if h.status == Held then 1 else 0
  }

  function Taken(h: Hold): int {
    if h.status == Captured then 1 else 0
  }

  /** One hold row is written; the row it replaces was either on the same lot or released. */
  lemma HoldWritten(holds: seq<Hold>, i: nat, h: Hold)
    requires i < |holds| && holds[i].session == h.session && holds[i].org == h.org
    requires holds[i].lot == h.lot || holds[i].status == Released
    ensures HoldsMoved(holds, holds[i := h], h.org, h.lot, Some(h.session),
                       Live(h) - Live(holds[i]), Taken(h) - Taken(holds[i]))
  {
    var next, held, captured := holds[i := h], Live(h) - Live(holds[i]), Taken(h) - Taken(holds[i]);
    forall p ensures Sum(next, HeldFor(p)) == Sum(holds, HeldFor(p)) + (if p == h.org then held else 0) {
      SumUpdate(holds, i, h, HeldFor(p));
    }
    forall q: nat ensures Sum(next, HeldOn(q)) == Sum(holds, HeldOn(q)) + (if q == h.lot then held else 0) {
      SumUpdate(holds, i, h, HeldOn(q));
    }
    forall q: nat ensures Sum(next, CapturedOn(q)) == Sum(holds, CapturedOn(q)) + (if q == h.lot then captured else 0) {
      SumUpdate(holds, i, h, CapturedOn(q));
    }
    forall t ensures Sum(next, CapturedBy(t)) == Sum(holds, CapturedBy(t)) + (if h.session == t then captured else 0) {
      SumUpdate(holds, i, h, CapturedBy(t));
    }
    forall t ensures Sum(next, TakenBy(t)) == Sum(holds, TakenBy(t)) + (if h.session == t then held + captured else 0) {
      SumUpdate(holds, i, h, TakenBy(t));
    }
  }

  lemma HoldAdded(holds: seq<Hold>, h: Hold)
    requires h.status == Held
    ensures HoldsMoved(holds, holds + [h], h.org, h.lot, Some(h.session), 1, 0)
  {
    forall p { SumAppend(holds, h, HeldFor(p)); }
    forall q: nat { SumAppend(holds, h, HeldOn(q)); }
    forall q: nat { SumAppend(holds, h, CapturedOn(q)); }
    forall t { SumAppend(holds, h, CapturedBy(t)); }
    forall t { SumAppend(holds, h, TakenBy(t)); }
  }

  // ---- the books stay balanced when every table moves by the same effect ----

  /** b differs from a by effect x, by held new live holds and by captured new captures, all on x.lot. */
  ghost predicate Moved(a: Db, b: Db, x: Effect, held: int, captured: int) {
    && LogGrew(a.log, b.log, x)
    && LotsMoved(a.lots, b.lots, x.org, x.delta, held)
    && HoldsMoved(a.holds, b.holds, x.org, x.lot, x.session, held, captured)
    && x.consumes == captured && x.reserves == held + captured
  }

  ghost predicate WalletMoved(a: Db, b: Db, x: Effect, held: int) {
    && b.wallets.Keys == a.wallets.Keys && x.org in a.wallets
    && (forall o | o in a.wallets ::
          && b.wallets[o].available == a.wallets[o].available + (if o == x.org then x.delta else 0)
          && b.wallets[o].reserved == a.wallets[o].reserved + (if o == x.org then held else 0))
  }

  lemma WalletsFollow(a: Db, b: Db, x: Effect, held: int, captured: int)
    requires WalletsOk(a) && Moved(a, b, x, held, captured) && WalletMoved(a, b, x, held)
    ensures WalletsOk(b)
  {
    forall o | o in b.wallets ensures WalletOk(b, o) {
      assert WalletOk(a, o);
    }
  }

  lemma SessionsFollow(a: Db, b: Db, x: Effect, held: int, captured: int)
    requires SessionsOk(a) && Moved(a, b, x, held, captured)
    ensures SessionsOk(b)
  {
    forall s: SessionId ensures SessionOk(b, s) {
      assert SessionOk(a, s);
    }
  }

  predicate RowMoved(was: Lot, now: Lot, x: Effect, held: int, captured: int) {
    && CountsOk(now)
    && now.reserved == was.reserved + held && now.consumed == was.consumed + captured
    && SpendableIn(now) == SpendableIn(was) + x.delta
    && now.kind == was.kind && x.purchases == 0
  }

  /** Only the row x.lot was written, by this effect. */
  predicate OneRowMoved(a: seq<LotRow>, b: seq<LotRow>, x: Effect, held: int, captured: int) {
    && |b| == |a| && x.lot < |a|
    && (forall r | 0 <= r < |a| && r != x.lot :: b[r] == a[r])
    && RowMoved(a[x.lot].lot, b[x.lot].lot, x, held, captured)
  }

  lemma TalliesFollow(a: Db, b: Db, x: Effect, held: int, captured: int)
    requires forall r: nat | r < |a.lots| :: TallyOk(a.holds, r, a.lots[r].lot)
    requires HoldsMoved(a.holds, b.holds, x.org, x.lot, x.session, held, captured)
    requires OneRowMoved(a.lots, b.lots, x, held, captured)
    ensures forall r: nat | r < |b.lots| :: TallyOk(b.holds, r, b.lots[r].lot)
  {
    forall r: nat | r < |b.lots| ensures TallyOk(b.holds, r, b.lots[r].lot) {
      assert TallyOk(a.holds, r, a.lots[r].lot);
    }
  }

  lemma EntriesFollow(a: Db, b: Db, x: Effect, held: int, captured: int)
    requires forall r: nat | r < |a.lots| :: EntriesOk(a.log, r, a.lots[r].lot)
    requires LogGrew(a.log, b.log, x)
    requires OneRowMoved(a.lots, b.lots, x, held, captured)
    requires ExitsOk(b.log, x.lot, b.lots[x.lot].lot.status)
    ensures forall r: nat | r < |b.lots| :: EntriesOk(b.log, r, b.lots[r].lot)
  {
    forall r: nat | r < |b.lots| ensures EntriesOk(b.log, r, b.lots[r].lot) {
      assert EntriesOk(a.log, r, a.lots[r].lot);
    }
  }

  ghost predicate SameIdentities(a: seq<LotRow>, b: seq<LotRow>) {
    |a| == |b| && forall r | 0 <= r < |a| ::
      a[r].org == b[r].org && a[r].payment == b[r].payment && a[r].currency == b[r].currency && a[r].lot.kind == b[r].lot.kind
  }

  lemma IdentitiesFollow(a: Db, b: Db, x: Effect)
    requires LogKeyed(a) && LogGrew(a.log, b.log, x) && SameIdentities(a.lots, b.lots)
    requires x.lot < |a.lots| && x.org == a.lots[x.lot].org
    ensures LogKeyed(b)
  {
  }

  lemma PaidFollow(a: Db, b: Db)
    requires forall r: nat | r < |a.lots| :: PaidOk(a.wallets, a.lots[r])
    requires SameIdentities(a.lots, b.lots)
    requires forall o :: o in a.wallets <==> o in b.wallets
    requires forall o | o in a.wallets :: a.wallets[o].currency == b.wallets[o].currency
    ensures forall r: nat | r < |b.lots| :: PaidOk(b.wallets, b.lots[r])
  {
    forall r: nat | r < |b.lots| ensures PaidOk(b.wallets, b.lots[r]) {
      assert PaidOk(a.wallets, a.lots[r]);
    }
  }

  /** Everything about the write other than the sums: one lot row, one wallet row, no identity. */
  ghost predicate Shaped(a: Db, b: Db, x: Effect, held: int, captured: int) {
    && Keyed(b)
    && WalletMoved(a, b, x, held)
    && OneRowMoved(a.lots, b.lots, x, held, captured)
    && SameIdentities(a.lots, b.lots)
    && x.org == a.lots[x.lot].org
    && (forall o | o in a.wallets :: a.wallets[o].currency == b.wallets[o].currency)
  }

  ghost predicate ExitsFollow(b: Db, x: Effect) {
    x.lot < |b.lots| && ExitsOk(b.log, x.lot, b.lots[x.lot].lot.status)
  }

  predicate Exiting(status: LotStatus) {
    status == Frozen || status == Revoked
  }

  predicate QuietStatus(was: LotStatus, now: LotStatus) {
    || now == was
    || (was == Frozen && now == Revoked)
    || (!Exiting(was) && !Exiting(now))
  }

  /** A write that is no freeze, no unfreeze and no refund leaves the lot's exits as they were. */
  lemma QuietExits(a: Db, b: Db, x: Effect)
    requires Inv(a) && LogGrew(a.log, b.log, x) && x.freezes == 0 && x.refunds == 0
    requires |a.lots| == |b.lots| && x.lot < |b.lots|
    requires QuietStatus(a.lots[x.lot].lot.status, b.lots[x.lot].lot.status)
    ensures ExitsFollow(b, x)
  {
    hide WalletsOk, SessionsOk, TallyOk, PaidOk, LogKeyed, Keyed;
    assert EntriesOk(a.log, x.lot, a.lots[x.lot].lot);
  }

  /** Every single-row operation on an existing lot keeps the invariant by this one argument. */
  lemma BooksFollow(a: Db, b: Db, x: Effect, held: int, captured: int)
    requires Inv(a) && Moved(a, b, x, held, captured) && Shaped(a, b, x, held, captured) && ExitsFollow(b, x)
    ensures Inv(b)
  {
    hide WalletsOk, SessionsOk, LogGrew, LotsMoved, HoldsMoved, TallyOk, EntriesOk, ExitsOk, PaidOk, Keyed, LogKeyed;
    WalletsFollow(a, b, x, held, captured);
    SessionsFollow(a, b, x, held, captured);
    TalliesFollow(a, b, x, held, captured);
    EntriesFollow(a, b, x, held, captured);
    IdentitiesFollow(a, b, x);
    PaidFollow(a, b);
  }

  // ---- each single-row update keeps the invariant ----

  lemma LotFacts(db: Db, r: nat)
    requires Inv(db) && r < |db.lots|
    ensures Keyed(db) && CountsOk(db.lots[r].lot) && EntriesOk(db.log, r, db.lots[r].lot)
  {
  }

  /** A held hold means its lot has at least one reserved credit. */
  lemma HeldIsReserved(db: Db, i: nat)
    requires Inv(db) && i < |db.holds| && db.holds[i].status == Held
    ensures CountsOk(db.lots[db.holds[i].lot].lot) && db.lots[db.holds[i].lot].lot.reserved >= 1
  {
    var r := db.holds[i].lot;
    SumBounds(db.holds, HeldOn(r));
    assert HeldOn(r)(db.holds[i]) == 1;
    assert TallyOk(db.holds, r, db.lots[r].lot);
  }

  ghost function ClosingEffect(row: LotRow, r: nat, kind: EntryKind): Effect {
    EffectOf(Entry(row.org, r, kind, -AvailableInLot(row.lot), None))
  }

  predicate Closes(status: LotStatus, kind: EntryKind) {
    || (status == Expired && kind == Expire)
    || (status == Frozen && kind == DisputeFreeze)
    || (status == Revoked && kind == RefundReversal)
  }

  lemma CloseMoves(db: Db, r: nat, status: LotStatus, kind: EntryKind)
    requires Keyed(db) && r < |db.lots| && db.lots[r].lot.status == Active && Closes(status, kind)
    ensures Moved(db, CloseLot(db, r, status, kind), ClosingEffect(db.lots[r], r, kind), 0, 0)
  {
    hide LogGrew, LotsMoved;
    var row := db.lots[r];
    LotWritten(db.lots, r, row.(lot := row.lot.(status := status)));
    Logged(db.log, Entry(row.org, r, kind, -AvailableInLot(row.lot), None));
  }

  lemma CloseShaped(db: Db, r: nat, status: LotStatus, kind: EntryKind)
    requires Keyed(db) && r < |db.lots| && db.lots[r].lot.status == Active && Closes(status, kind)
    requires CountsOk(db.lots[r].lot) && EntriesOk(db.log, r, db.lots[r].lot)
    ensures Shaped(db, CloseLot(db, r, status, kind), ClosingEffect(db.lots[r], r, kind), 0, 0)
    ensures ExitsFollow(CloseLot(db, r, status, kind), ClosingEffect(db.lots[r], r, kind))
  {
    CloseExits(db, r, status, kind);
    hide EntriesOk, ExitsOk;
  }

  lemma LotKeys(db: Db, r: nat)
    requires Keyed(db) && r < |db.lots|
    ensures db.lots[r].org in db.wallets
  {
  }

  lemma CloseExits(db: Db, r: nat, status: LotStatus, kind: EntryKind)
    requires Keyed(db) && r < |db.lots| && db.lots[r].lot.status == Active && Closes(status, kind)
    requires EntriesOk(db.log, r, db.lots[r].lot)
    ensures ExitsFollow(CloseLot(db, r, status, kind), ClosingEffect(db.lots[r], r, kind))
  {
    hide Keyed, LogGrew, Alternates;
    var e := Entry(db.lots[r].org, r, kind, -AvailableInLot(db.lots[r].lot), None);
    Logged(db.log, e);
    GrewAt(db.log, db.log + [e], EffectOf(e), r);
    LotKeys(db, r);
  }

  lemma CloseKeepsInv(db: Db, r: nat, status: LotStatus, kind: EntryKind)
    requires Inv(db) && r < |db.lots| && db.lots[r].lot.status == Active && Closes(status, kind)
    ensures Inv(CloseLot(db, r, status, kind))
  {
    hide *;
    LotFacts(db, r);
    CloseMoves(db, r, status, kind);
    CloseShaped(db, r, status, kind);
    BooksFollow(db, CloseLot(db, r, status, kind), ClosingEffect(db.lots[r], r, kind), 0, 0);
  }

  ghost function ReopeningEntry(row: LotRow, r: nat): Entry {
    Entry(row.org, r, DisputeRelease, AvailableInLot(row.lot), None)
  }

  lemma ReopenMoves(db: Db, r: nat)
    requires Keyed(db) && r < |db.lots| && db.lots[r].lot.status == Frozen
    ensures Moved(db, ReopenLot(db, r), EffectOf(ReopeningEntry(db.lots[r], r)), 0, 0)
  {
    var row := db.lots[r];
    LotWritten(db.lots, r, row.(lot := row.lot.(status := Active)));
    Logged(db.log, ReopeningEntry(row, r));
  }

  lemma ReopenShaped(db: Db, r: nat)
    requires Keyed(db) && r < |db.lots| && db.lots[r].lot.status == Frozen
    requires CountsOk(db.lots[r].lot) && EntriesOk(db.log, r, db.lots[r].lot)
    ensures Shaped(db, ReopenLot(db, r), EffectOf(ReopeningEntry(db.lots[r], r)), 0, 0)
    ensures ExitsFollow(ReopenLot(db, r), EffectOf(ReopeningEntry(db.lots[r], r)))
  {
    Logged(db.log, ReopeningEntry(db.lots[r], r));
  }

  lemma ReopenKeepsInv(db: Db, r: nat)
    requires Inv(db) && r < |db.lots| && db.lots[r].lot.status == Frozen
    ensures Inv(ReopenLot(db, r))
  {
    hide *;
    LotFacts(db, r);
    ReopenMoves(db, r);
    ReopenShaped(db, r);
    BooksFollow(db, ReopenLot(db, r), EffectOf(ReopeningEntry(db.lots[r], r)), 0, 0);
  }

  /** An effect that moves nothing, for writes that change no counter. */
  ghost function NoEffect(o: OrgId, r: nat): Effect {
    Effect(o, r, None, 0, 0, 0, 0, 0, 0)
  }

  ghost predicate QuietRow(was: LotRow, row: LotRow) {
    && row == was.(lot := row.lot, frozenAt := row.frozenAt)
    && (row.lot == was.lot || (was.lot.status == Frozen && row.lot == was.lot.(status := Revoked)))
  }

  lemma QuietMoves(db: Db, r: nat, row: LotRow)
    requires r < |db.lots| && QuietRow(db.lots[r], row)
    ensures Moved(db, db.(lots := db.lots[r := row]), NoEffect(row.org, r), 0, 0)
  {
    LotWritten(db.lots, r, row);
  }

  lemma QuietShaped(db: Db, r: nat, row: LotRow)
    requires Keyed(db) && r < |db.lots| && QuietRow(db.lots[r], row) && CountsOk(db.lots[r].lot)
    ensures Shaped(db, db.(lots := db.lots[r := row]), NoEffect(row.org, r), 0, 0)
  {
  }

  /** Stamping frozenAt, or revoking a frozen lot, moves no balance. */
  lemma QuietLotWriteKeepsInv(db: Db, r: nat, row: LotRow)
    requires Inv(db) && r < |db.lots| && QuietRow(db.lots[r], row)
    ensures Keyed(db.(lots := db.lots[r := row])) && Inv(db.(lots := db.lots[r := row]))
  {
    var c, x := db.(lots := db.lots[r := row]), NoEffect(row.org, r);
    LotFacts(db, r);
    hide Inv, LotsOk, WalletsOk, SessionsOk, LogKeyed, LogGrew, LotsMoved, HoldsMoved, EntriesOk, ExitsOk, Keyed;
    QuietMoves(db, r, row);
    QuietShaped(db, r, row);
    QuietExits(db, c, x);
    BooksFollow(db, c, x, 0, 0);
  }

  function Renewed(db: Db, i: nat, expiresAt: int): Db
    requires i < |db.holds|
  {
    SetHold(db, i, db.holds[i].(expiresAt := expiresAt))
  }

  lemma RenewMoves(db: Db, i: nat, expiresAt: int)
    requires i < |db.holds|
    ensures Moved(db, Renewed(db, i, expiresAt), NoEffect(db.holds[i].org, db.holds[i].lot), 0, 0)
  {
    HoldWritten(db.holds, i, db.holds[i].(expiresAt := expiresAt));
  }

  lemma RenewShaped(db: Db, i: nat, expiresAt: int)
    requires Keyed(db) && i < |db.holds| && CountsOk(db.lots[db.holds[i].lot].lot)
    ensures Shaped(db, Renewed(db, i, expiresAt), NoEffect(db.holds[i].org, db.holds[i].lot), 0, 0)
  {
  }

  lemma RenewKeepsInv(db: Db, i: nat, expiresAt: int)
    requires Inv(db) && i < |db.holds|
    ensures Keyed(Renewed(db, i, expiresAt)) && Inv(Renewed(db, i, expiresAt))
  {
    var h := db.holds[i];
    var c, x := Renewed(db, i, expiresAt), NoEffect(h.org, h.lot);
    LotFacts(db, h.lot);
    hide Inv, LotsOk, WalletsOk, SessionsOk, LogKeyed, LogGrew, LotsMoved, HoldsMoved, EntriesOk, ExitsOk, Keyed;
    RenewMoves(db, i, expiresAt);
    RenewShaped(db, i, expiresAt);
    QuietExits(db, c, x);
    BooksFollow(db, c, x, 0, 0);
  }

  ghost function ConsumeEntry(h: Hold): Entry {
    Entry(h.org, h.lot, Consume, 0, Some(h.session))
  }

  lemma CaptureMoves(db: Db, i: nat, now: int)
    requires Keyed(db) && i < |db.holds| && db.holds[i].status == Held
    requires CountsOk(db.lots[db.holds[i].lot].lot) && db.lots[db.holds[i].lot].lot.reserved >= 1
    ensures Moved(db, CaptureHold(db, i, now), EffectOf(ConsumeEntry(db.holds[i])), -1, 1)
  {
    hide LogGrew, LotsMoved, HoldsMoved;
    var h := db.holds[i];
    var row := db.lots[h.lot];
    LotWritten(db.lots, h.lot, row.(lot := CapturedLot(row.lot)));
    HoldWritten(db.holds, i, h.(status := Captured, resolvedAt := Some(now)));
    Logged(db.log, ConsumeEntry(h));
  }

  lemma CaptureShaped(db: Db, i: nat, now: int)
    requires Keyed(db) && i < |db.holds| && db.holds[i].status == Held
    requires CountsOk(db.lots[db.holds[i].lot].lot) && db.lots[db.holds[i].lot].lot.reserved >= 1
    ensures Shaped(db, CaptureHold(db, i, now), EffectOf(ConsumeEntry(db.holds[i])), -1, 1)
  {
  }

  lemma CaptureKeepsInv(db: Db, i: nat, now: int)
    requires Inv(db) && i < |db.holds| && db.holds[i].status == Held
    ensures Inv(CaptureHold(db, i, now))
  {
    HeldIsReserved(db, i);
    LotFacts(db, db.holds[i].lot);
    var c, x := CaptureHold(db, i, now), EffectOf(ConsumeEntry(db.holds[i]));
    hide Inv, LotsOk, WalletsOk, SessionsOk, LogKeyed, LogGrew, LotsMoved, HoldsMoved, Shaped, EntriesOk, ExitsOk;
    CaptureMoves(db, i, now);
    CaptureShaped(db, i, now);
    QuietExits(db, c, x);
    BooksFollow(db, c, x, -1, 1);
  }

  ghost function ReleaseEntry(h: Hold): Entry {
    Entry(h.org, h.lot, Release, 1, Some(h.session))
  }

  ghost function ReleaseEffect(db: Db, i: nat): Effect
    requires Keyed(db) && i < |db.holds|
  {
    EffectOf(ReleaseEntry(db.holds[i])).(delta := ReleaseDelta(db, i))
  }

  lemma ReleaseMoves(db: Db, i: nat, now: int)
    requires Keyed(db) && i < |db.holds| && db.holds[i].status == Held
    ensures Moved(db, ReleaseHold(db, i, now), ReleaseEffect(db, i), -1, 0)
  {
    hide LogGrew, LotsMoved, HoldsMoved;
    var h := db.holds[i];
    var row := db.lots[h.lot];
    LotWritten(db.lots, h.lot, row.(lot := row.lot.(reserved := row.lot.reserved - 1)));
    HoldWritten(db.holds, i, h.(status := Released, resolvedAt := Some(now)));
    if row.lot.status == Active {
      Logged(db.log, ReleaseEntry(h));
    } else {
      LoggedPair(db.log, ReleaseEntry(h));
    }
  }

  lemma ReleaseShaped(db: Db, i: nat, now: int)
    requires Keyed(db) && i < |db.holds| && db.holds[i].status == Held
    requires CountsOk(db.lots[db.holds[i].lot].lot) && db.lots[db.holds[i].lot].lot.reserved >= 1
    ensures Shaped(db, ReleaseHold(db, i, now), ReleaseEffect(db, i), -1, 0)
  {
  }

  lemma ReleaseKeepsInv(db: Db, i: nat, now: int)
    requires Inv(db) && i < |db.holds| && db.holds[i].status == Held
    ensures Inv(ReleaseHold(db, i, now))
  {
    HeldIsReserved(db, i);
    LotFacts(db, db.holds[i].lot);
    var c, x := ReleaseHold(db, i, now), ReleaseEffect(db, i);
    hide Inv, LotsOk, WalletsOk, SessionsOk, LogKeyed, LogGrew, LotsMoved, HoldsMoved, Shaped, EntriesOk, ExitsOk;
    ReleaseMoves(db, i, now);
    ReleaseShaped(db, i, now);
    QuietExits(db, c, x);
    BooksFollow(db, c, x, -1, 0);
  }

  ghost function HoldEntry(h: Hold): Entry {
    Entry(h.org, h.lot, Reserve, -1, Some(h.session))
  }

  ghost predicate Placeable(db: Db, slot: Option<nat>, h: Hold) {
    && Keyed(db) && h.lot < |db.lots| && h.org == db.lots[h.lot].org && FreeSlot(db, slot, h.session)
    && h.status == Held && db.lots[h.lot].lot.status == Active && AvailableInLot(db.lots[h.lot].lot) > 0
    && (slot.Some? ==> db.holds[slot.value].status == Released && db.holds[slot.value].org == h.org)
  }

  lemma PlaceMoves(db: Db, slot: Option<nat>, h: Hold)
    requires Placeable(db, slot, h)
    ensures Moved(db, PlaceHold(db, slot, h), EffectOf(HoldEntry(h)), 1, 0)
  {
    hide LogGrew, LotsMoved, HoldsMoved;
    var row := db.lots[h.lot];
    LotWritten(db.lots, h.lot, row.(lot := row.lot.(reserved := row.lot.reserved + 1)));
    if slot.Some? {
      HoldWritten(db.holds, slot.value, h);
    } else {
      HoldAdded(db.holds, h);
    }
    Logged(db.log, HoldEntry(h));
  }

  lemma PlaceShaped(db: Db, slot: Option<nat>, h: Hold)
    requires Placeable(db, slot, h) && CountsOk(db.lots[h.lot].lot)
    ensures Shaped(db, PlaceHold(db, slot, h), EffectOf(HoldEntry(h)), 1, 0)
  {
    hide FreeSlot;
  }

  lemma PlaceKeepsInv(db: Db, slot: Option<nat>, h: Hold)
    requires Inv(db) && Placeable(db, slot, h)
    ensures Inv(PlaceHold(db, slot, h))
  {
    LotFacts(db, h.lot);
    var c, x := PlaceHold(db, slot, h), EffectOf(HoldEntry(h));
    hide Inv, LotsOk, WalletsOk, SessionsOk, LogKeyed, LogGrew, LotsMoved, HoldsMoved, Shaped, EntriesOk, ExitsOk;
    PlaceMoves(db, slot, h);
    PlaceShaped(db, slot, h);
    QuietExits(db, c, x);
    BooksFollow(db, c, x, 1, 0);
  }

  // ---- new wallets, new lots, and the currency lock ----

  /** An organization without a wallet has no lot, no hold and no entry. */
  lemma UnusedOrganization(db: Db, o: OrgId)
    requires Keyed(db) && LogKeyed(db) && o !in db.wallets
    ensures Sum(db.lots, Spendable(o)) == 0 && Sum(db.lots, ReservedIn(o)) == 0
    ensures Sum(db.holds, HeldFor(o)) == 0 && Sum(db.log, DeltaOf(o)) == 0
  {
    SumZero(db.lots, Spendable(o));
    SumZero(db.lots, ReservedIn(o));
    SumZero(db.holds, HeldFor(o));
    forall k | 0 <= k < |db.log| ensures DeltaOf(o)(db.log[k]) == 0 {
      assert db.log[k] in db.log;
    }
    SumZero(db.log, DeltaOf(o));
  }

  lemma NewWalletKeepsInv(db: Db, o: OrgId)
    requires Inv(db) && o !in db.wallets
    ensures Inv(db.(wallets := db.wallets[o := Wallet(0, 0, None)]))
  {
    hide LogKeyed, SessionsOk, TallyOk, EntriesOk, CountsOk;
    var c := db.(wallets := db.wallets[o := Wallet(0, 0, None)]);
    UnusedOrganization(db, o);
    forall p | p in c.wallets ensures WalletOk(c, p) {
      assert p != o ==> WalletOk(db, p);
    }
    forall r: nat | r < |c.lots| ensures PaidOk(c.wallets, c.lots[r]) {
      assert PaidOk(db.wallets, db.lots[r]);
    }
    LogKeyedIgnoresWallets(db, c);
    SessionsIgnoreWallets(db, c);
  }

  lemma LogKeyedIgnoresWallets(a: Db, b: Db)
    requires LogKeyed(a) && a.log == b.log && a.lots == b.lots
    ensures LogKeyed(b)
  {
  }

  lemma SessionsIgnoreWallets(a: Db, b: Db)
    requires SessionsOk(a) && a.log == b.log && a.holds == b.holds
    ensures SessionsOk(b)
  {
    forall s: SessionId ensures SessionOk(b, s) {
      assert SessionOk(a, s);
    }
  }

  /** A wallet may be locked to a currency that every paid lot of its organization carries. */
  lemma LockKeepsInv(db: Db, o: OrgId, currency: string)
    requires Inv(db) && o in db.wallets
    requires forall l | l in db.lots && l.org == o && l.lot.kind == Paid :: l.currency == currency
    ensures Inv(db.(wallets := db.wallets[o := db.wallets[o].(currency := Some(currency))]))
  {
    hide LogKeyed, SessionsOk, TallyOk, EntriesOk, CountsOk;
    var c := db.(wallets := db.wallets[o := db.wallets[o].(currency := Some(currency))]);
    forall p | p in c.wallets ensures WalletOk(c, p) {
      assert WalletOk(db, p);
    }
    forall r: nat | r < |c.lots| ensures PaidOk(c.wallets, c.lots[r]) {
      assert PaidOk(db.wallets, db.lots[r]) && db.lots[r] in db.lots;
    }
    LogKeyedIgnoresWallets(db, c);
    SessionsIgnoreWallets(db, c);
  }

  /** No hold and no entry names a lot that does not exist yet. */
  lemma UnusedLotNumber(db: Db)
    requires Keyed(db) && LogKeyed(db)
    ensures Sum(db.holds, HeldOn(|db.lots|)) == 0 && Sum(db.holds, CapturedOn(|db.lots|)) == 0
    ensures Sum(db.log, DeltaOn(|db.lots|)) == 0 && Sum(db.log, PurchasesOn(|db.lots|)) == 0
    ensures Sum(db.log, RefundsOn(|db.lots|)) == 0 && Sum(db.log, NetFreezesOn(|db.lots|)) == 0
    ensures Alternates(db.log, |db.lots|)
  {
    var r := |db.lots|;
    SumZero(db.holds, HeldOn(r));
    SumZero(db.holds, CapturedOn(r));
    forall k | 0 <= k < |db.log| ensures db.log[k].lot != r {
      assert db.log[k] in db.log;
    }
    SumZero(db.log, DeltaOn(r));
    SumZero(db.log, PurchasesOn(r));
    SumZero(db.log, RefundsOn(r));
    forall n | 0 <= n <= |db.log| ensures SumTo(db.log, n, NetFreezesOn(r)) == 0 {
      SumToZero(db.log, n, NetFreezesOn(r));
    }
  }

  ghost predicate Addable(db: Db, row: LotRow, kind: EntryKind) {
    && row.org in db.wallets && FindId(db.lots, row.lot.id).None?
    && (row.payment.Some? ==> FindPayment(db.lots, row.payment.value).None?)
    && row.lot.granted > 0 && row.lot.consumed == 0 && row.lot.reserved == 0 && row.lot.status == Active
    && (row.lot.kind == Paid <==> kind == PackPurchase) && (row.lot.kind == Free <==> kind == FreeGrant)
    && PaidOk(db.wallets, row)
  }

  ghost function AddEntry(db: Db, row: LotRow, kind: EntryKind): Entry {
    Entry(row.org, |db.lots|, kind, row.lot.granted, None)
  }

  lemma AddedEntriesOk(db: Db, row: LotRow, kind: EntryKind)
    requires Keyed(db) && LogKeyed(db) && LotsOk(db) && Addable(db, row, kind)
    ensures var c := AddLot(db, row, kind);
            forall r: nat | r < |c.lots| :: EntriesOk(c.log, r, c.lots[r].lot)
  {
    hide Keyed, LogKeyed, PaidOk, TallyOk, LogGrew, Alternates;
    var c := AddLot(db, row, kind);
    Logged(db.log, AddEntry(db, row, kind));
    UnusedLotNumber(db);
    forall r: nat | r < |c.lots| ensures EntriesOk(c.log, r, c.lots[r].lot) {
      GrewAt(db.log, c.log, EffectOf(AddEntry(db, row, kind)), r);
      assert r < |db.lots| ==> EntriesOk(db.log, r, db.lots[r].lot);
    }
  }

  lemma AddedLotsOk(db: Db, row: LotRow, kind: EntryKind)
    requires Keyed(db) && LogKeyed(db) && LotsOk(db) && Addable(db, row, kind)
    ensures LotsOk(AddLot(db, row, kind))
  {
    var c := AddLot(db, row, kind);
    AddedEntriesOk(db, row, kind);
    UnusedLotNumber(db);
    hide Keyed, LogKeyed, EntriesOk;
    forall r: nat | r < |c.lots| ensures CountsOk(c.lots[r].lot) && TallyOk(c.holds, r, c.lots[r].lot) {
      assert r < |db.lots| ==> CountsOk(db.lots[r].lot) && TallyOk(db.holds, r, db.lots[r].lot);
    }
    forall r: nat | r < |c.lots| ensures PaidOk(c.wallets, c.lots[r]) {
      assert r < |db.lots| ==> PaidOk(db.wallets, db.lots[r]);
    }
  }

  lemma AddMoves(db: Db, row: LotRow, kind: EntryKind)
    requires Keyed(db) && Addable(db, row, kind)
    ensures Moved(db, AddLot(db, row, kind), EffectOf(AddEntry(db, row, kind)), 0, 0)
  {
    hide LogGrew, LotsMoved, PaidOk;
    LotAdded(db.lots, row);
    Logged(db.log, AddEntry(db, row, kind));
  }

  lemma AddKeyed(db: Db, row: LotRow, kind: EntryKind)
    requires Keyed(db) && LogKeyed(db) && Addable(db, row, kind)
    ensures Keyed(AddLot(db, row, kind)) && LogKeyed(AddLot(db, row, kind))
    ensures WalletMoved(db, AddLot(db, row, kind), EffectOf(AddEntry(db, row, kind)), 0)
  {
    hide PaidOk;
  }

  lemma AddKeepsInv(db: Db, row: LotRow, kind: EntryKind)
    requires Inv(db) && Addable(db, row, kind)
    ensures Inv(AddLot(db, row, kind))
  {
    var c, x := AddLot(db, row, kind), EffectOf(AddEntry(db, row, kind));
    hide LotsOk, WalletsOk, SessionsOk, LogKeyed, LogGrew, LotsMoved, HoldsMoved, Keyed;
    AddedLotsOk(db, row, kind);
    AddMoves(db, row, kind);
    AddKeyed(db, row, kind);
    WalletsFollow(db, c, x, 0, 0);
    SessionsFollow(db, c, x, 0, 0);
  }
}
