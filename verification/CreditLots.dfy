/** The lot policy of packages/core/src/domain/credit-lots.ts: which credits are spendable, and which go first. */
module CreditLots {
  import opened Sums

  datatype Kind = Free | Paid
  datatype LotStatus = Active | Exhausted | Expired | Frozen | Revoked

  /** A lot as the policy sees it. Times are integers; ids come from a total order. */
  datatype Lot = Lot(
    id: int,
    kind: Kind,
    status: LotStatus,
    granted: int,
    consumed: int,
    reserved: int,
    grantedAt: int,
    expiresAt: int)

  function AvailableInLot(lot: Lot): int {
    lot.granted - lot.consumed - lot.reserved
  }

  predicate ClockActive(lot: Lot, now: int) {
    lot.status == Active && lot.expiresAt > now
  }

  predicate Eligible(lot: Lot, now: int) {
    ClockActive(lot, now) && AvailableInLot(lot) > 0
  }

  /** Free before paid, then soonest expiry, then oldest grant, then id. */
  function Compare(a: Lot, b: Lot): int {
    if a.kind != b.kind then (if a.kind == Free then -1 else 1)
    else if a.expiresAt != b.expiresAt then a.expiresAt - b.expiresAt
    else if a.grantedAt != b.grantedAt then a.grantedAt - b.grantedAt
    else if a.id < b.id then -1
    else if a.id > b.id then 1
    else 0
  }

  function EligibleLots(lots: seq<Lot>, now: int): (r: seq<Lot>)
    ensures forall l :: l in r <==> l in lots && Eligible(l, now)
  {
    if lots == [] then []
    else (if Eligible(lots[0], now) then [lots[0]] else []) + EligibleLots(lots[1..], now)
  }

  predicate Sorted(lots: seq<Lot>) {
    forall i, j | 0 <= i < j < |lots| :: Compare(lots[i], lots[j]) <= 0
  }

  /** Inserts before the first lot that does not compare smaller. */
  function Insert(lot: Lot, sorted: seq<Lot>): (r: seq<Lot>)
    requires Sorted(sorted)
    ensures Sorted(r)
    ensures forall l :: l in r <==> l == lot || l in sorted
  {
    if sorted == [] then [lot]
    else if Compare(lot, sorted[0]) <= 0 then
      PrependKeepsSorted(lot, sorted);
      [lot] + sorted
    else
      var rest := Insert(lot, sorted[1..]);
      PrependKeepsSorted(sorted[0], rest);
      [sorted[0]] + rest
  }

  lemma PrependKeepsSorted(lot: Lot, sorted: seq<Lot>)
    requires Sorted(sorted)
    requires sorted == [] || Compare(lot, sorted[0]) <= 0 || forall l | l in sorted :: Compare(lot, l) <= 0
    ensures Sorted([lot] + sorted)
  {
    var r := [lot] + sorted;
    forall i, j | 0 <= i < j < |r| ensures Compare(r[i], r[j]) <= 0 {
      if i == 0 && j > 1 {
        assert Compare(sorted[0], sorted[j - 1]) <= 0;
        CompareIsTotalOrder(lot, sorted[0], sorted[j - 1]);
      }
    }
  }

  function Sort(lots: seq<Lot>): (r: seq<Lot>)
    ensures Sorted(r)
    ensures forall l :: l in r <==> l in lots
  {
    if lots == [] then []
    else
      Insert(lots[0], Sort(lots[1..]))
  }

  lemma {:induction false} InsertKeepsLots(lot: Lot, sorted: seq<Lot>)
    requires Sorted(sorted)
    ensures multiset(Insert(lot, sorted)) == multiset(sorted) + multiset{lot}
  {
    if sorted != [] {
      assert sorted == [sorted[0]] + sorted[1..];
      if Compare(lot, sorted[0]) > 0 {
        InsertKeepsLots(lot, sorted[1..]);
      }
    }
  }

  /** Sorting loses no lot and invents none. */
  lemma {:induction false} SortIsPermutation(lots: seq<Lot>)
    ensures multiset(Sort(lots)) == multiset(lots)
  {
    if lots != [] {
      assert lots == [lots[0]] + lots[1..];
      SortIsPermutation(lots[1..]);
      InsertKeepsLots(lots[0], Sort(lots[1..]));
    }
  }

  /** Filter, sort, take the first. */
  function SelectLotForReservation(lots: seq<Lot>, now: int): (r: Option<Lot>)
    ensures r.None? <==> forall l | l in lots :: !Eligible(l, now)
    ensures r.Some? ==> r.value in lots && Eligible(r.value, now)
    ensures r.Some? ==> forall l | l in lots && Eligible(l, now) :: Compare(r.value, l) <= 0
  {
    var sorted := Sort(EligibleLots(lots, now));
    if sorted == [] then
      assert forall l | l in lots :: !Eligible(l, now) by {
        forall l | l in lots ensures !Eligible(l, now) { assert l in sorted <==> Eligible(l, now); }
      }
      None
    else
      assert sorted[0] in sorted;
      Some(sorted[0])
  }

  predicate DistinctIds(lots: seq<Lot>) {
    forall i, j | 0 <= i < j < |lots| :: lots[i].id != lots[j].id
  }

  /** The comparator is a total order whose only ties are lots with the same id. */
  lemma CompareIsTotalOrder(a: Lot, b: Lot, c: Lot)
    ensures Compare(a, b) <= 0 || Compare(b, a) <= 0
    ensures Compare(a, b) <= 0 && Compare(b, c) <= 0 ==> Compare(a, c) <= 0
    ensures Compare(a, b) <= 0 && Compare(b, a) <= 0 ==> a.id == b.id
  {
  }

  /** The chosen lot does not depend on the order in which the lots were loaded. */
  lemma SelectionIgnoresLoadOrder(lots: seq<Lot>, other: seq<Lot>, now: int)
    requires DistinctIds(lots)
    requires multiset(lots) == multiset(other)
    ensures SelectLotForReservation(lots, now) == SelectLotForReservation(other, now)
  {
    forall l ensures l in lots <==> l in other {
      assert l in multiset(lots) <==> l in multiset(other);
    }
    var a, b := SelectLotForReservation(lots, now), SelectLotForReservation(other, now);
    if a.Some? && b.Some? {
      CompareIsTotalOrder(a.value, b.value, b.value);
    }
  }

  /**
   * What the choice means for the customer: free credits before bought ones, within a kind the soonest to lapse, then the
   * oldest grant, then the smallest id.
   */
  lemma FreeThenSoonest(lots: seq<Lot>, now: int, m: Lot)
    requires m in lots && Eligible(m, now)
    ensures SelectLotForReservation(lots, now).Some?
    ensures var l := SelectLotForReservation(lots, now).value;
            && l in lots && l.status == Active && now < l.expiresAt && l.consumed + l.reserved < l.granted
            && (m.kind == Free ==> l.kind == Free)
            && (m.kind == l.kind ==> l.expiresAt <= m.expiresAt)
            && (m.kind == l.kind && m.expiresAt == l.expiresAt ==> l.grantedAt <= m.grantedAt)
            && (m.kind == l.kind && m.expiresAt == l.expiresAt && m.grantedAt == l.grantedAt ==> l.id <= m.id)
  {
    var pick := SelectLotForReservation(lots, now);
    assert pick.Some?;
    assert Compare(pick.value, m) <= 0;
  }

  datatype WalletTotals = WalletTotals(
    available: int,
    reserved: int,
    freeAvailable: int,
    paidAvailable: int,
    nextExpiry: Option<(int, int)>)

  function ClockActiveCredits(now: int): Lot -> int {
    (l: Lot) => if ClockActive(l, now) then AvailableInLot(l) else 0
  }

  function FreeClockActiveCredits(now: int): Lot -> int {
    (l: Lot) => if ClockActive(l, now) && l.kind == Free then AvailableInLot(l) else 0
  }

  function ReservedCredits(): Lot -> int {
    (l: Lot) => l.reserved
  }

  function ComputeWalletTotals(lots: seq<Lot>, now: int): WalletTotals {
    var available := Sum(lots, ClockActiveCredits(now));
    var free := Sum(lots, FreeClockActiveCredits(now));
    WalletTotals(available, Sum(lots, ReservedCredits()), free, available - free, NextExpiry(lots, now))
  }

  function PaidClockActiveCredits(now: int): Lot -> int {
    (l: Lot) => if l.kind == Paid && l.status == Active && now < l.expiresAt then l.granted - l.consumed - l.reserved else 0
  }

  lemma {:induction false} KindsSplit(lots: seq<Lot>, n: nat, now: int)
    requires n <= |lots|
    ensures SumTo(lots, n, ClockActiveCredits(now)) ==
            SumTo(lots, n, FreeClockActiveCredits(now)) + SumTo(lots, n, PaidClockActiveCredits(now))
  {
    if n > 0 {
      KindsSplit(lots, n - 1, now);
    }
  }

  /** The paid part of the totals, found by subtraction, is what the paid lots still carry at the clock. */
  lemma PaidTotalIsPaidCredits(lots: seq<Lot>, now: int)
    ensures ComputeWalletTotals(lots, now).paidAvailable == Sum(lots, PaidClockActiveCredits(now))
    ensures ComputeWalletTotals(lots, now).freeAvailable + Sum(lots, PaidClockActiveCredits(now)) ==
            ComputeWalletTotals(lots, now).available
  {
    KindsSplit(lots, |lots|, now);
  }

  /** The first soonest-expiring eligible lot in load order, as a stable sort by expiry leaves it. */
  function NextExpiry(lots: seq<Lot>, now: int): (r: Option<(int, int)>)
    ensures r.None? <==> forall l | l in lots :: !Eligible(l, now)
    ensures r.Some? ==> exists l :: l in lots && Eligible(l, now) && r.value == (AvailableInLot(l), l.expiresAt)
    ensures r.Some? ==> forall l | l in lots && Eligible(l, now) :: r.value.1 <= l.expiresAt
  {
    if lots == [] then None
    else
      var n := |lots| - 1;
      assert lots == lots[..n] + [lots[n]];
      var earlier := NextExpiry(lots[..n], now);
      if !Eligible(lots[n], now) then earlier
      else if earlier.Some? && earlier.value.1 <= lots[n].expiresAt then earlier
      else Some((AvailableInLot(lots[n]), lots[n].expiresAt))
  }
}
