/**
 * Soonest-expiry-first is optimal. Against the same grants and the same requests, no other way of
 * choosing eligible lots of one kind ever serves more requests than SelectLotForReservation.
 */
module SelectionOptimality {
  import opened Sums
  import opened CreditLots

  datatype Event = Grant(lot: Lot) | Request(now: int)

  /** A table of lots and the number of requests served from it. */
  datatype Desk = Desk(lots: seq<Lot>, served: int)

  predicate Sound(lot: Lot, kind: Kind) {
    lot.kind == kind && AvailableInLot(lot) >= 0
  }

  predicate AllSound(lots: seq<Lot>, kind: Kind) {
    forall l | l in lots :: Sound(l, kind)
  }

  function Take(lots: seq<Lot>, i: nat): seq<Lot>
    requires i < |lots|
  {
    lots[i := lots[i].(reserved := lots[i].reserved + 1)]
  }

  function RowOf(lots: seq<Lot>, lot: Lot): (i: nat)
    requires lot in lots
    ensures i < |lots| && lots[i] == lot
  {
    if lots[0] == lot then 0 else 1 + RowOf(lots[1..], lot)
  }

  function PolicyStep(d: Desk, e: Event): Desk {
    match e
    case Grant(lot) => Desk(d.lots + [lot], d.served)
    case Request(now) =>
      match SelectLotForReservation(d.lots, now)
      case None => d
      case Some(lot) => Desk(Take(d.lots, RowOf(d.lots, lot)), d.served + 1)
  }

  /** A rival may pick any eligible row for a request, or turn the request away. */
  predicate Allowed(d: Desk, e: Event, choice: Option<nat>) {
    e.Request? && choice.Some? ==> choice.value < |d.lots| && Eligible(d.lots[choice.value], e.now)
  }

  function RivalStep(d: Desk, e: Event, choice: Option<nat>): Desk
    requires Allowed(d, e, choice)
  {
    match e
    case Grant(lot) => Desk(d.lots + [lot], d.served)
    case Request(now) => if choice.None? then d else Desk(Take(d.lots, choice.value), d.served + 1)
  }

  function PolicyRun(d: Desk, events: seq<Event>): Desk
    decreases |events|
  {
    if events == [] then d else PolicyRun(PolicyStep(d, events[0]), events[1..])
  }

  predicate AllowedRun(d: Desk, events: seq<Event>, choices: seq<Option<nat>>)
    decreases |events|
  {
    |choices| == |events| &&
    (events != [] ==>
      Allowed(d, events[0], choices[0]) &&
      AllowedRun(RivalStep(d, events[0], choices[0]), events[1..], choices[1..]))
  }

  function RivalRun(d: Desk, events: seq<Event>, choices: seq<Option<nat>>): Desk
    requires AllowedRun(d, events, choices)
    decreases |events|
  {
    if events == [] then d
    else RivalRun(RivalStep(d, events[0], choices[0]), events[1..], choices[1..])
  }

  /** Requests arrive in time order from now on, and every granted lot is sound and of the one kind. */
  predicate InOrder(events: seq<Event>, now: int, kind: Kind) {
    events != [] ==>
      match events[0]
      case Grant(lot) => Sound(lot, kind) && InOrder(events[1..], now, kind)
      case Request(t) => now <= t && InOrder(events[1..], t, kind)
  }

  /** Credits that are still spendable after the clock has passed d. */
  function Lasting(lots: seq<Lot>, d: int): int {
    Sum(lots, ClockActiveCredits(d))
  }

  /** Requests served plus lasting credits: the policy is ahead at every deadline from now on. */
  ghost predicate Ahead(policy: Desk, rival: Desk, now: int) {
    forall d | d >= now :: Lasting(policy.lots, d) + policy.served >= Lasting(rival.lots, d) + rival.served
  }

  lemma TakeLasting(lots: seq<Lot>, i: nat, d: int)
    requires i < |lots| && lots[i].status == Active
    ensures Lasting(Take(lots, i), d) == Lasting(lots, d) - (if lots[i].expiresAt > d then 1 else 0)
  {
    SumUpdate(lots, i, lots[i].(reserved := lots[i].reserved + 1), ClockActiveCredits(d));
  }

  /** Lasting credits fall by at least the available credits of a lot that lapses between the deadlines. */
  lemma {:induction false} LastingFalls(lots: seq<Lot>, kind: Kind, t: int, d: int)
    requires AllSound(lots, kind) && t <= d
    ensures 0 <= Lasting(lots, d) <= Lasting(lots, t)
    ensures forall l | l in lots && ClockActive(l, t) && !ClockActive(l, d) ::
              Lasting(lots, d) + AvailableInLot(l) <= Lasting(lots, t)
  {
    if lots != [] {
      var n := |lots| - 1;
      assert lots == lots[..n] + [lots[n]] && lots[n] in lots;
      LastingFalls(lots[..n], kind, t, d);
      SumAppend(lots[..n], lots[n], ClockActiveCredits(t));
      SumAppend(lots[..n], lots[n], ClockActiveCredits(d));
    }
  }

  /** Until its soonest-expiring lot lapses, a table loses nothing. */
  lemma LastingUntilSoonest(lots: seq<Lot>, kind: Kind, t: int, d: int)
    requires AllSound(lots, kind) && t <= d
    requires forall l | l in lots && Eligible(l, t) :: l.expiresAt > d
    ensures Lasting(lots, d) == Lasting(lots, t)
  {
    forall i | 0 <= i < |lots| ensures ClockActiveCredits(d)(lots[i]) == ClockActiveCredits(t)(lots[i]) {
      assert lots[i] in lots;
    }
    SumPointwise(lots, lots, ClockActiveCredits(d), ClockActiveCredits(t));
  }

  lemma PolicyServes(p: Desk, r: Desk, kind: Kind, now: int, choice: Option<nat>)
    requires AllSound(p.lots, kind) && AllSound(r.lots, kind) && Ahead(p, r, now)
    requires Allowed(r, Request(now), choice)
    ensures Ahead(PolicyStep(p, Request(now)), RivalStep(r, Request(now), choice), now)
  {
    var p', r' := PolicyStep(p, Request(now)), RivalStep(r, Request(now), choice);
    var pick := SelectLotForReservation(p.lots, now);
    forall d | d >= now
      ensures Lasting(p'.lots, d) + p'.served >= Lasting(r'.lots, d) + r'.served
    {
      LastingFalls(p.lots, kind, now, d);
      LastingFalls(r.lots, kind, now, d);
      if choice.Some? {
        TakeLasting(r.lots, choice.value, d);
        assert r.lots[choice.value] in r.lots;
      }
      if pick.Some? {
        TakeLasting(p.lots, RowOf(p.lots, pick.value), d);
        if d < pick.value.expiresAt {
          LastingUntilSoonest(p.lots, kind, now, d);
        }
      } else {
        LastingUntilSoonest(p.lots, kind, now, d);
        forall i | 0 <= i < |p.lots| ensures ClockActiveCredits(now)(p.lots[i]) == 0 {
          assert p.lots[i] in p.lots;
        }
        SumZero(p.lots, ClockActiveCredits(now));
      }
    }
  }

  lemma TakeKeepsSound(lots: seq<Lot>, i: nat, kind: Kind)
    requires AllSound(lots, kind) && i < |lots| && AvailableInLot(lots[i]) > 0
    ensures AllSound(Take(lots, i), kind)
  {
    forall l | l in Take(lots, i) ensures Sound(l, kind) {
      var k :| 0 <= k < |lots| && Take(lots, i)[k] == l;
      assert lots[k] in lots;
    }
  }

  lemma {:induction false} PolicyStaysAhead(
    p: Desk, r: Desk, kind: Kind, now: int, events: seq<Event>, choices: seq<Option<nat>>) returns (end: int)
    requires AllSound(p.lots, kind) && AllSound(r.lots, kind) && Ahead(p, r, now)
    requires InOrder(events, now, kind) && AllowedRun(r, events, choices)
    ensures Ahead(PolicyRun(p, events), RivalRun(r, events, choices), end)
    ensures AllSound(PolicyRun(p, events).lots, kind) && AllSound(RivalRun(r, events, choices).lots, kind)
    decreases |events|
  {
    if events == [] {
      return now;
    }
    var e := events[0];
    var p', r' := PolicyStep(p, e), RivalStep(r, e, choices[0]);
    match e
    case Grant(lot) =>
      forall d | d >= now
        ensures Lasting(p'.lots, d) + p'.served >= Lasting(r'.lots, d) + r'.served
      {
        SumAppend(p.lots, lot, ClockActiveCredits(d));
        SumAppend(r.lots, lot, ClockActiveCredits(d));
        assert Lasting(p.lots, d) + p.served >= Lasting(r.lots, d) + r.served;
      }
      end := PolicyStaysAhead(p', r', kind, now, events[1..], choices[1..]);
    case Request(t) =>
      PolicyServes(p, r, kind, t, choices[0]);
      var pick := SelectLotForReservation(p.lots, t);
      if pick.Some? {
        TakeKeepsSound(p.lots, RowOf(p.lots, pick.value), kind);
      }
      if choices[0].Some? {
        TakeKeepsSound(r.lots, choices[0].value, kind);
      }
      end := PolicyStaysAhead(p', r', kind, t, events[1..], choices[1..]);
  }

  lemma {:induction false} BeyondEveryExpiry(lots: seq<Lot>, from: int) returns (d: int)
    ensures d >= from && forall l | l in lots :: l.expiresAt <= d
  {
    if lots == [] {
      d := from;
    } else {
      d := BeyondEveryExpiry(lots[1..], from);
      d := if d < lots[0].expiresAt then lots[0].expiresAt else d;
    }
  }

  /**
   * For every table of sound lots of one kind, every sequence of grants and time-ordered requests,
   * and every rival choice of eligible lots, the policy serves at least as many requests.
   */
  lemma SoonestExpiryIsOptimal(
    lots: seq<Lot>, kind: Kind, now: int, events: seq<Event>, choices: seq<Option<nat>>)
    requires AllSound(lots, kind) && InOrder(events, now, kind)
    requires AllowedRun(Desk(lots, 0), events, choices)
    ensures PolicyRun(Desk(lots, 0), events).served >= RivalRun(Desk(lots, 0), events, choices).served
  {
    var start := Desk(lots, 0);
    var end := PolicyStaysAhead(start, start, kind, now, events, choices);
    var p, r := PolicyRun(start, events), RivalRun(start, events, choices);
    var d := BeyondEveryExpiry(p.lots, end);
    SumZero(p.lots, ClockActiveCredits(d));
    LastingFalls(r.lots, kind, d, d);
  }
}
