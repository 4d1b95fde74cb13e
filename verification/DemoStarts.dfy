/** The marketing-demo start allocator: one global lock, a concurrency cap, a daily cap and a compensating release. */
module DemoStarts {
  import opened Sums

  type RoleSlug = int
  type RealtimeId = int

  const DAY_MS := 24 * 60 * 60 * 1000
  const RUNTIME_TTL_MS := 12 * 60 * 1000

  /** A preview row; isDemo says its snapshot parses as a marketing demo. A deleted row matches no query any more. */
  datatype Preview = Preview(
    isDemo: bool,
    role: RoleSlug,
    expiresAt: int,
    revoked: bool,
    liveTestCount: int,
    startedAt: Option<int>,
    runtimeExpiresAt: Option<int>,
    completedAt: Option<int>,
    realtime: Option<RealtimeId>,
    deleted: bool)

  /** The control row, the role switches, the previews and the per-day counters. */
  datatype Demo = Demo(
    enabled: bool,
    concurrentCap: int,
    dailyCap: int,
    roles: map<RoleSlug, bool>,
    previews: seq<Preview>,
    started: map<int, int>)

  datatype Refusal = DemoUnavailable | AlreadyStarted | RoleNotFound | ConcurrencyCapReached | DailyCapReached

  /** What a successful start hands its caller, and what the caller gives back to release it. */
  datatype Token = Token(day: int, preview: nat, runtimeExpiresAt: int)

  datatype StartResult = Started(token: Token) | Refused(reason: Refusal)

  function UtcDay(now: int): int {
    now - now % DAY_MS
  }

  function Running(now: int): Preview -> int {
    (p: Preview) =>
      if !p.deleted && p.isDemo && p.completedAt.None?
         && p.runtimeExpiresAt.Some? && p.runtimeExpiresAt.value > now then 1 else 0
  }

  function RunningCount(previews: seq<Preview>, now: int): int {
    Sum(previews, Running(now))
  }

  function StartedCount(d: Demo, day: int): int {
    if day in d.started then d.started[day] else 0
  }

  predicate Startable(p: Preview, now: int) {
    !p.deleted && p.isDemo && p.expiresAt > now && !p.revoked && p.liveTestCount == 0
  }

  function StartedPreview(p: Preview, now: int): Preview {
    p.(liveTestCount := p.liveTestCount + 1, runtimeExpiresAt := Some(now + RUNTIME_TTL_MS), startedAt := Some(now))
  }

  /** reserveMarketingDemoStart: every refusal rolls the whole transaction back. */
  function ReserveStart(d: Demo, i: nat, now: int): (Demo, StartResult) {
    var day := UtcDay(now);
    if !d.enabled then (d, Refused(DemoUnavailable))
    else if i >= |d.previews| || !Startable(d.previews[i], now) then (d, Refused(AlreadyStarted))
    else if d.previews[i].role !in d.roles || !d.roles[d.previews[i].role] then (d, Refused(RoleNotFound))
    else if RunningCount(d.previews, now) >= d.concurrentCap then (d, Refused(ConcurrencyCapReached))
    else if StartedCount(d, day) >= d.dailyCap then (d, Refused(DailyCapReached))
    else
      (d.(previews := d.previews[i := StartedPreview(d.previews[i], now)],
          started := d.started[day := StartedCount(d, day) + 1]),
       Started(Token(day, i, now + RUNTIME_TTL_MS)))
  }

  predicate Releasable(d: Demo, t: Token) {
    && t.preview < |d.previews| && !d.previews[t.preview].deleted
    && d.previews[t.preview].liveTestCount == 1
    && d.previews[t.preview].realtime.None?
    && d.previews[t.preview].runtimeExpiresAt == Some(t.runtimeExpiresAt)
  }

  function ReleasedPreview(p: Preview): Preview {
    p.(completedAt := None, liveTestCount := 0, runtimeExpiresAt := None, startedAt := None)
  }

  /** releaseMarketingDemoStart: the counter falls only with an effective release, and never below zero. */
  function ReleaseStart(d: Demo, t: Token): Demo {
    if !Releasable(d, t) then d
    else
      var freed := d.(previews := d.previews[t.preview := ReleasedPreview(d.previews[t.preview])]);
      if StartedCount(d, t.day) > 0 then freed.(started := d.started[t.day := StartedCount(d, t.day) - 1]) else freed
  }

  predicate SessionTaken(previews: seq<Preview>, session: RealtimeId) {
    exists i :: 0 <= i < |previews| && previews[i].realtime == Some(session)
  }

  /** confirmMarketingDemoProvisioning: binds the realtime session, once; the column is unique. */
  function Confirm(d: Demo, t: Token, session: RealtimeId): Demo {
    if !Releasable(d, t) || SessionTaken(d.previews, session) then d
    else d.(previews := d.previews[t.preview := d.previews[t.preview].(realtime := Some(session))])
  }

  /** The handoff marks the preview of its realtime session completed and keeps it readable a little longer. */
  function Complete(d: Demo, i: nat, session: RealtimeId, now: int, readableUntil: int): Demo {
    if i >= |d.previews| || d.previews[i].deleted || d.previews[i].realtime != Some(session) then d
    else d.(previews := d.previews[i := d.previews[i].(completedAt := Some(now), runtimeExpiresAt := Some(readableUntil))])
  }

  // ---- what the operations mean ----

  /** A day starts at its own midnight and lasts 24 hours. */
  lemma DayOf(now: int)
    ensures UtcDay(now) <= now < UtcDay(now) + DAY_MS && UtcDay(now) % DAY_MS == 0
  {
  }

  /** A demo preview that is neither started, expired, revoked nor gone. */
  predicate Waiting(p: Preview, now: int) {
    p.isDemo && !p.deleted && !p.revoked && p.liveTestCount == 0 && now < p.expiresAt
  }

  predicate RoleOpen(d: Demo, role: RoleSlug) {
    role in d.roles && d.roles[role]
  }

  /** A start is admitted exactly when nothing stands against it, and a refusal names the first thing that does. */
  lemma AdmittedIff(d: Demo, i: nat, now: int)
    ensures var r := ReserveStart(d, i, now).1;
            var waiting := i < |d.previews| && Waiting(d.previews[i], now);
            && (r.Started? <==>
                  && d.enabled && waiting && RoleOpen(d, d.previews[i].role)
                  && RunningCount(d.previews, now) < d.concurrentCap && StartedCount(d, UtcDay(now)) < d.dailyCap)
            && (r == Refused(DemoUnavailable) <==> !d.enabled)
            && (r == Refused(AlreadyStarted) <==> d.enabled && !waiting)
            && (r == Refused(RoleNotFound) <==> d.enabled && waiting && !RoleOpen(d, d.previews[i].role))
            && (r == Refused(ConcurrencyCapReached) <==>
                  && d.enabled && waiting && RoleOpen(d, d.previews[i].role)
                  && RunningCount(d.previews, now) >= d.concurrentCap)
            && (r == Refused(DailyCapReached) <==>
                  && d.enabled && waiting && RoleOpen(d, d.previews[i].role)
                  && RunningCount(d.previews, now) < d.concurrentCap && StartedCount(d, UtcDay(now)) >= d.dailyCap)
            && (r.Refused? ==> ReserveStart(d, i, now).0 == d)
  {
    hide RunningCount, StartedCount, UtcDay;
  }

  /** An admitted start runs for its twelve minutes, counts against its own day alone, and touches no other preview. */
  lemma StartedMeans(d: Demo, i: nat, now: int)
    requires ReserveStart(d, i, now).1.Started?
    ensures var (end, r) := ReserveStart(d, i, now);
            && i < |d.previews| && |end.previews| == |d.previews|
            && r.token == Token(UtcDay(now), i, now + RUNTIME_TTL_MS)
            && end.previews[i] == d.previews[i].(liveTestCount := 1, startedAt := Some(now),
                                                 runtimeExpiresAt := Some(now + RUNTIME_TTL_MS))
            && (forall k | 0 <= k < |d.previews| && k != i :: end.previews[k] == d.previews[k])
            && (forall day :: StartedCount(end, day) == StartedCount(d, day) + (if day == UtcDay(now) then 1 else 0))
  {
    hide UtcDay, RunningCount;
  }

  /** Releasing a start before it is confirmed undoes it: the previews and every day's count are as before. */
  lemma ReleaseUndoesStart(d: Demo, i: nat, now: int)
    requires ReserveStart(d, i, now).1.Started? && PreviewOk(d.previews[i]) && StartedCount(d, UtcDay(now)) >= 0
    ensures var (mid, r) := ReserveStart(d, i, now);
            var end := ReleaseStart(mid, r.token);
            && end.previews == d.previews && (forall day :: StartedCount(end, day) == StartedCount(d, day))
            && end == d.(started := end.started)
  {
    hide UtcDay, RunningCount;
    var (mid, r) := ReserveStart(d, i, now);
    assert Releasable(mid, r.token);
    assert mid.previews[i := ReleasedPreview(mid.previews[i])] == d.previews;
  }

  /** A start is confirmed once, for a free realtime session, and is then out of reach of a release. */
  lemma ConfirmedMeans(d: Demo, t: Token, session: RealtimeId)
    ensures var end := Confirm(d, t, session);
            && (Releasable(d, t) && (forall i | 0 <= i < |d.previews| :: d.previews[i].realtime != Some(session)) ==>
                  && t.preview < |end.previews| && end.previews[t.preview].realtime == Some(session)
                  && ReleaseStart(end, t) == end)
            && (!Releasable(d, t) || SessionTaken(d.previews, session) ==> end == d)
            && end.started == d.started
  {
  }

  /** A completed demo stops counting as running at once. */
  lemma CompletedIsNotRunning(d: Demo, i: nat, session: RealtimeId, now: int, readableUntil: int, instant: int)
    requires i < |d.previews| && !d.previews[i].deleted && d.previews[i].realtime == Some(session)
    ensures var end := Complete(d, i, session, now, readableUntil);
            && i < |end.previews| && Running(instant)(end.previews[i]) == 0
            && RunningCount(end.previews, instant) == RunningCount(d.previews, instant) - Running(instant)(d.previews[i])
  {
    var p := d.previews[i].(completedAt := Some(now), runtimeExpiresAt := Some(readableUntil));
    SumUpdate(d.previews, i, p, Running(instant));
  }

  // ---- the allocator as the program runs it ----

  class DemoAllocator {
    const concurrentCap: int
    const dailyCap: int
    var enabled: bool
    var roles: map<RoleSlug, bool>
    var previews: seq<Preview>
    var started: map<int, int>

    function Snapshot(): Demo
      reads this
    {
      Demo(enabled, concurrentCap, dailyCap, roles, previews, started)
    }

    constructor (concurrentCap: int, dailyCap: int, enabled: bool, roles: map<RoleSlug, bool>)
      ensures Snapshot() == Demo(enabled, concurrentCap, dailyCap, roles, [], map[])
    {
      this.concurrentCap, this.dailyCap, this.enabled, this.roles := concurrentCap, dailyCap, enabled, roles;
      previews, started := [], map[];
    }

    /** Checks both caps and starts the preview, all under the lock on the control row. */
    method ReserveMarketingDemoStart(i: nat, now: int) returns (r: StartResult)
      modifies this`previews, this`started
      ensures (Snapshot(), r) == ReserveStart(old(Snapshot()), i, now)
    {
      var runtimeExpiresAt := now + RUNTIME_TTL_MS;
      var day := UtcDay(now);
      if !enabled {
        return Refused(DemoUnavailable);
      }
      if i >= |previews| || !Startable(previews[i], now) {
        return Refused(AlreadyStarted);
      }
      var role := previews[i].role;
      if role !in roles || !roles[role] {
        return Refused(RoleNotFound);
      }
      if RunningCount(previews, now) >= concurrentCap {
        return Refused(ConcurrencyCapReached);
      }
      var usage := if day in started then started[day] else 0;
      if usage >= dailyCap {
        return Refused(DailyCapReached);
      }
      var p := previews[i];
      previews := previews[i := p.(
          liveTestCount := p.liveTestCount + 1, runtimeExpiresAt := Some(runtimeExpiresAt), startedAt := Some(now))];
      started := started[day := usage + 1];
      r := Started(Token(day, i, runtimeExpiresAt));
    }

    /** Gives a start back, once, unless its realtime session was confirmed. */
    method ReleaseMarketingDemoStart(t: Token)
      modifies this`previews, this`started
      ensures Snapshot() == ReleaseStart(old(Snapshot()), t)
    {
      if Releasable(Snapshot(), t) {
        var p := previews[t.preview];
        previews := previews[t.preview := p.(
            completedAt := None, liveTestCount := 0, runtimeExpiresAt := None, startedAt := None)];
        if t.day in started && started[t.day] > 0 {
          started := started[t.day := started[t.day] - 1];
        }
      }
    }

    /** Binds the realtime session to the start; anything but the expected start is an error that writes nothing. */
    method ConfirmMarketingDemoProvisioning(t: Token, session: RealtimeId) returns (confirmed: bool)
      modifies this`previews
      ensures Snapshot() == Confirm(old(Snapshot()), t, session)
      ensures confirmed ==> t.preview < |previews| && previews[t.preview].realtime == Some(session)
      ensures !confirmed ==> Snapshot() == old(Snapshot())
    {
      if !Releasable(Snapshot(), t) || SessionTaken(previews, session) {
        return false;
      }
      previews := previews[t.preview := previews[t.preview].(realtime := Some(session))];
      confirmed := true;
    }
  }

  // ---- runs ----

  datatype Step =
    | Configure(enabled: bool, roles: map<RoleSlug, bool>)
    | Create(row: Preview)
    | Start(i: nat, now: int)
    | Release(token: Token)
    | ConfirmStart(token: Token, session: RealtimeId)
    | Finish(i: nat, session: RealtimeId, now: int, readableUntil: int)
    | Revoke(i: nat)
    | Delete(i: nat)
    | Rehearse(i: nat, row: Preview)

  /** Effective starts and releases, in order. */
  datatype Event = StartEvent(token: Token) | ReleaseEvent(token: Token)

  /** A state and the history that led to it; a caller can only give back a token it was given. */
  datatype World = World(demo: Demo, history: seq<Event>)

  predicate Issued(history: seq<Event>, t: Token) {
    StartEvent(t) in history
  }

  predicate FreshPreview(p: Preview) {
    && p.liveTestCount == 0 && p.startedAt.None? && p.runtimeExpiresAt.None? && p.completedAt.None?
    && p.realtime.None? && !p.deleted
  }

  function Apply(w: World, step: Step): World {
    var d := w.demo;
    match step
    case Configure(enabled, roles) => w.(demo := d.(enabled := enabled, roles := roles))
    case Create(p) => if FreshPreview(p) then w.(demo := d.(previews := d.previews + [p])) else w
    case Start(i, now) =>
      var (d', r) := ReserveStart(d, i, now);
      World(d', if r.Started? then w.history + [StartEvent(r.token)] else w.history)
    case Release(t) =>
      if !Issued(w.history, t) then w
      else World(ReleaseStart(d, t), if Releasable(d, t) then w.history + [ReleaseEvent(t)] else w.history)
    case ConfirmStart(t, session) => if Issued(w.history, t) then w.(demo := Confirm(d, t, session)) else w
    case Finish(i, session, now, until) => w.(demo := Complete(d, i, session, now, until))
    case Rehearse(i, p) =>
      if i < |d.previews| && !d.previews[i].isDemo && !p.isDemo then w.(demo := d.(previews := d.previews[i := p])) else w
    case Delete(i) =>
      if i < |d.previews| then w.(demo := d.(previews := d.previews[i := d.previews[i].(deleted := true)])) else w
    case Revoke(i) =>
      if i < |d.previews| then w.(demo := d.(previews := d.previews[i := d.previews[i].(revoked := true)])) else w
  }

  function Run(w: World, steps: seq<Step>): World {
    if steps == [] then w else Apply(Run(w, steps[..|steps| - 1]), steps[|steps| - 1])
  }

  /** No start read a clock past the instant; starts may commit in any order of their clocks. */
  predicate StartedBy(steps: seq<Step>, instant: int) {
    forall step | step in steps && step.Start? :: step.now <= instant
  }

  // ---- the invariant ----

  /** Demo previews that count against the day. */
  ghost function StartedOn(day: int): Preview -> int {
    (p: Preview) => if p.isDemo && p.liveTestCount == 1 && p.startedAt.Some? && UtcDay(p.startedAt.value) == day then 1 else 0
  }

  predicate PreviewOk(p: Preview) {
    p.isDemo ==>
    && (p.liveTestCount == 0 || p.liveTestCount == 1)
    && (p.liveTestCount == 1 <==> p.startedAt.Some?)
    && (p.liveTestCount == 0 ==> p.runtimeExpiresAt.None? && p.realtime.None? && p.completedAt.None?)
    && (p.liveTestCount == 1 && p.realtime.None? ==>
          p.runtimeExpiresAt == Some(p.startedAt.value + RUNTIME_TTL_MS) && p.completedAt.None?)
  }

  /** Starts minus effective releases on the day. */
  ghost function NetOn(day: int): Event -> int {
    (e: Event) => if e.token.day != day then 0 else if e.StartEvent? then 1 else -1
  }

  /** Starts minus effective releases of the preview. */
  ghost function NetOf(i: nat): Event -> int {
    (e: Event) => if e.token.preview != i then 0 else if e.StartEvent? then 1 else -1
  }

  ghost predicate Alternates(history: seq<Event>, i: nat) {
    forall n | 0 <= n <= |history| :: 0 <= SumTo(history, n, NetOf(i)) <= 1
  }

  ghost predicate PreviewsOk(d: Demo) {
    forall i | 0 <= i < |d.previews| :: PreviewOk(d.previews[i])
  }

  /** The day's counter counts the demo previews started on it, and never exceeds the cap. */
  ghost predicate CountersOk(d: Demo) {
    && d.dailyCap >= 0
    && (forall day :: StartedCount(d, day) == Sum(d.previews, StartedOn(day)))
    && (forall day :: StartedCount(d, day) <= d.dailyCap)
  }

  ghost predicate HistoryKeyed(w: World) {
    forall e | e in w.history ::
      && e.token.preview < |w.demo.previews| && w.demo.previews[e.token.preview].isDemo
      && e.token.day == UtcDay(e.token.runtimeExpiresAt - RUNTIME_TTL_MS)
  }

  ghost predicate DaysOk(w: World) {
    forall day :: StartedCount(w.demo, day) == Sum(w.history, NetOn(day))
  }

  function LiveCount(p: Preview): int {
    if p.isDemo then p.liveTestCount else 0
  }

  ghost predicate StartsOk(w: World) {
    && (forall i: nat | i < |w.demo.previews| :: Sum(w.history, NetOf(i)) == LiveCount(w.demo.previews[i]))
    && (forall i: nat :: Alternates(w.history, i))
  }

  ghost predicate Inv(w: World) {
    PreviewsOk(w.demo) && CountersOk(w.demo) && HistoryKeyed(w) && DaysOk(w) && StartsOk(w)
  }

  // ---- one written preview, one logged event ----

  lemma PreviewWritten(previews: seq<Preview>, i: nat, p: Preview)
    requires i < |previews|
    ensures forall day :: Sum(previews[i := p], StartedOn(day)) ==
                          Sum(previews, StartedOn(day)) - StartedOn(day)(previews[i]) + StartedOn(day)(p)
  {
    forall day { SumUpdate(previews, i, p, StartedOn(day)); }
  }

  lemma EventLogged(history: seq<Event>, e: Event)
    ensures forall day :: Sum(history + [e], NetOn(day)) == Sum(history, NetOn(day)) + NetOn(day)(e)
    ensures forall i: nat :: Sum(history + [e], NetOf(i)) == Sum(history, NetOf(i)) + NetOf(i)(e)
    ensures forall i: nat | Alternates(history, i) && 0 <= Sum(history + [e], NetOf(i)) <= 1 :: Alternates(history + [e], i)
  {
    forall day { SumAppend(history, e, NetOn(day)); }
    forall i: nat { SumAppend(history, e, NetOf(i)); }
    forall i: nat | Alternates(history, i) && 0 <= Sum(history + [e], NetOf(i)) <= 1 ensures Alternates(history + [e], i) {
      forall n | 0 <= n <= |history + [e]| ensures 0 <= SumTo(history + [e], n, NetOf(i)) <= 1 {
        if n <= |history| {
          SumToPointwise(history + [e], history, n, NetOf(i), NetOf(i));
        }
      }
    }
  }

  /** A write that changes neither whether the preview counts nor its day keeps the invariant. */
  lemma QuietWriteKeepsInv(w: World, i: nat, p: Preview)
    requires Inv(w) && i < |w.demo.previews| && PreviewOk(p)
    requires p.isDemo == w.demo.previews[i].isDemo
    requires p.isDemo ==> p.liveTestCount == w.demo.previews[i].liveTestCount && p.startedAt == w.demo.previews[i].startedAt
    ensures Inv(w.(demo := w.demo.(previews := w.demo.previews[i := p])))
  {
    PreviewWritten(w.demo.previews, i, p);
    var v := w.(demo := w.demo.(previews := w.demo.previews[i := p]));
    assert forall day :: StartedCount(v.demo, day) == StartedCount(w.demo, day);
  }

  lemma CreateKeepsInv(w: World, p: Preview)
    requires Inv(w) && FreshPreview(p)
    ensures Inv(w.(demo := w.demo.(previews := w.demo.previews + [p])))
  {
    var v := w.(demo := w.demo.(previews := w.demo.previews + [p]));
    forall day ensures Sum(v.demo.previews, StartedOn(day)) == Sum(w.demo.previews, StartedOn(day)) {
      SumAppend(w.demo.previews, p, StartedOn(day));
    }
    var n := |w.demo.previews|;
    forall k | 0 <= k < |w.history| ensures NetOf(n)(w.history[k]) == 0 {
      assert w.history[k] in w.history;
    }
    SumZero(w.history, NetOf(n));
    assert forall day :: StartedCount(v.demo, day) == StartedCount(w.demo, day);
  }

  /** The four clauses an admitted start touches, one after the other. */
  lemma StartKeepsCounters(d: Demo, i: nat, now: int)
    requires PreviewsOk(d) && CountersOk(d) && ReserveStart(d, i, now).1.Started?
    ensures PreviewsOk(ReserveStart(d, i, now).0) && CountersOk(ReserveStart(d, i, now).0)
    ensures forall k :: StartedCount(ReserveStart(d, i, now).0, k) == StartedCount(d, k) + (if k == UtcDay(now) then 1 else 0)
  {
    PreviewWritten(d.previews, i, StartedPreview(d.previews[i], now));
  }

  lemma StartKeepsHistory(w: World, i: nat, now: int)
    requires HistoryKeyed(w) && DaysOk(w) && StartsOk(w) && ReserveStart(w.demo, i, now).1.Started?
    ensures var v := Apply(w, Start(i, now));
            HistoryKeyed(v) && DaysOk(v) && StartsOk(v)
  {
    var v := Apply(w, Start(i, now));
    var e := StartEvent(ReserveStart(w.demo, i, now).1.token);
    StartedMeans(w.demo, i, now);
    EventLogged(w.history, e);
    hide StartedCount, UtcDay, RunningCount, ReserveStart;
    forall k: nat | k < |v.demo.previews| ensures Sum(v.history, NetOf(k)) == LiveCount(v.demo.previews[k]) {
      assert Sum(w.history, NetOf(k)) == LiveCount(w.demo.previews[k]);
    }
    forall k: nat ensures Alternates(v.history, k) {
      assert Alternates(w.history, k);
    }
  }

  lemma StartKeepsInv(w: World, i: nat, now: int)
    requires Inv(w)
    ensures Inv(Apply(w, Start(i, now)))
  {
    hide PreviewsOk, CountersOk, HistoryKeyed, DaysOk, StartsOk, StartedCount, UtcDay, RunningCount;
    if ReserveStart(w.demo, i, now).1.Started? {
      StartKeepsCounters(w.demo, i, now);
      StartKeepsHistory(w, i, now);
    }
  }

  /** An issued token that still matches was issued on the day its preview was started. */
  lemma TokenDay(w: World, t: Token)
    requires Inv(w) && Issued(w.history, t) && Releasable(w.demo, t)
    ensures w.demo.previews[t.preview].isDemo && w.demo.previews[t.preview].startedAt.Some?
    ensures UtcDay(w.demo.previews[t.preview].startedAt.value) == t.day && StartedCount(w.demo, t.day) > 0
  {
    hide DaysOk, StartsOk;
    assert StartEvent(t) in w.history;
    assert PreviewOk(w.demo.previews[t.preview]);
    SumBounds(w.demo.previews, StartedOn(t.day));
    assert StartedOn(t.day)(w.demo.previews[t.preview]) == 1;
  }

  lemma ReleaseKeepsInv(w: World, t: Token)
    requires Inv(w)
    ensures Inv(Apply(w, Release(t)))
  {
    if Issued(w.history, t) && Releasable(w.demo, t) {
      TokenDay(w, t);
      var d := ReleaseStart(w.demo, t);
      PreviewWritten(w.demo.previews, t.preview, ReleasedPreview(w.demo.previews[t.preview]));
      EventLogged(w.history, ReleaseEvent(t));
      assert StartEvent(t) in w.history;
      forall k ensures StartedCount(d, k) == StartedCount(w.demo, k) - (if k == t.day then 1 else 0) {
      }
    }
  }

  lemma ApplyKeepsInv(w: World, step: Step)
    requires Inv(w)
    ensures Inv(Apply(w, step))
  {
    hide Inv, ReserveStart, ReleaseStart;
    match step
    case Configure(enabled, roles) => ConfigureKeepsInv(w, enabled, roles);
    case Create(p) => if FreshPreview(p) { CreateKeepsInv(w, p); }
    case Start(i, now) => StartKeepsInv(w, i, now);
    case Release(t) => ReleaseKeepsInv(w, t);
    case ConfirmStart(t, session) =>
      if Releasable(w.demo, t) {
        DemoRowOk(w, t.preview);
        QuietWriteKeepsInv(w, t.preview, w.demo.previews[t.preview].(realtime := Some(session)));
      }
    case Finish(i, session, now, until) =>
      if i < |w.demo.previews| && w.demo.previews[i].realtime == Some(session) {
        DemoRowOk(w, i);
        QuietWriteKeepsInv(w, i, w.demo.previews[i].(completedAt := Some(now), runtimeExpiresAt := Some(until)));
      }
    case Rehearse(i, p) =>
      if i < |w.demo.previews| && !w.demo.previews[i].isDemo && !p.isDemo {
        QuietWriteKeepsInv(w, i, p);
      }
    case Delete(i) =>
      if i < |w.demo.previews| {
        DemoRowOk(w, i);
        QuietWriteKeepsInv(w, i, w.demo.previews[i].(deleted := true));
      }
    case Revoke(i) =>
      if i < |w.demo.previews| {
        DemoRowOk(w, i);
        QuietWriteKeepsInv(w, i, w.demo.previews[i].(revoked := true));
      }
  }

  lemma ConfigureKeepsInv(w: World, enabled: bool, roles: map<RoleSlug, bool>)
    requires Inv(w)
    ensures Inv(w.(demo := w.demo.(enabled := enabled, roles := roles)))
  {
    var v := w.(demo := w.demo.(enabled := enabled, roles := roles));
    assert forall day :: StartedCount(v.demo, day) == StartedCount(w.demo, day);
  }

  lemma DemoRowOk(w: World, i: nat)
    requires Inv(w) && i < |w.demo.previews|
    ensures PreviewOk(w.demo.previews[i])
  {
  }

  lemma {:induction false} RunKeepsInv(w: World, steps: seq<Step>)
    requires Inv(w)
    ensures Inv(Run(w, steps))
  {
    hide Inv, Apply;
    if steps != [] {
      RunKeepsInv(w, steps[..|steps| - 1]);
      ApplyKeepsInv(Run(w, steps[..|steps| - 1]), steps[|steps| - 1]);
    }
  }

  /**
   * After any run the day's counter is its starts minus its effective releases, within the cap, and the starts and
   * releases of a preview alternate.
   */
  lemma DailyCapHolds(w: World, steps: seq<Step>, day: int, i: nat)
    requires Inv(w)
    ensures var end := Run(w, steps);
            && StartedCount(end.demo, day) == Sum(end.history, NetOn(day))
            && 0 <= StartedCount(end.demo, day) <= end.demo.dailyCap && end.demo.dailyCap == w.demo.dailyCap
            && forall n | 0 <= n <= |end.history| :: 0 <= SumTo(end.history, n, NetOf(i)) <= 1
  {
    RunKeepsInv(w, steps);
    RunKeepsCaps(w, steps);
    hide Run;
    var end := Run(w, steps);
    SumBounds(end.demo.previews, StartedOn(day));
    assert Alternates(end.history, i);
  }

  lemma {:induction false} RunKeepsCaps(w: World, steps: seq<Step>)
    ensures Run(w, steps).demo.dailyCap == w.demo.dailyCap
    ensures Run(w, steps).demo.concurrentCap == w.demo.concurrentCap
  {
    if steps != [] {
      RunKeepsCaps(w, steps[..|steps| - 1]);
    }
  }

  // ---- the concurrency cap at every instant ----

  /** As time passes fewer previews are running. */
  lemma RunningFalls(previews: seq<Preview>, n: nat, now: int, later: int)
    requires n <= |previews| && now <= later
    ensures 0 <= SumTo(previews, n, Running(later)) <= SumTo(previews, n, Running(now))
  {
  }

  lemma FewerRun(previews: seq<Preview>, now: int, later: int)
    requires now <= later
    ensures RunningCount(previews, later) <= RunningCount(previews, now)
  {
    RunningFalls(previews, |previews|, now, later);
  }

  lemma RunningWritten(previews: seq<Preview>, i: nat, p: Preview, now: int)
    requires i < |previews|
    ensures RunningCount(previews[i := p], now) == RunningCount(previews, now) - Running(now)(previews[i]) + Running(now)(p)
  {
    SumUpdate(previews, i, p, Running(now));
  }

  /** A written preview that is not running any more than before adds nothing to the count. */
  lemma QuietRunning(d: Demo, i: nat, p: Preview, now: int)
    requires i < |d.previews| && Running(now)(p) <= Running(now)(d.previews[i])
    ensures RunningCount(d.previews[i := p], now) <= RunningCount(d.previews, now)
  {
    RunningWritten(d.previews, i, p, now);
  }

  /** An admitted start leaves the count within the cap at its own clock, a refused one leaves it alone. */
  lemma StartKeepsRunning(d: Demo, i: nat, now: int)
    ensures ReserveStart(d, i, now).1.Started? ==>
              RunningCount(ReserveStart(d, i, now).0.previews, now) <= d.concurrentCap
    ensures ReserveStart(d, i, now).1.Refused? ==> ReserveStart(d, i, now).0 == d
  {
    if i < |d.previews| {
      RunningWritten(d.previews, i, StartedPreview(d.previews[i], now), now);
    }
  }

  lemma ReleaseKeepsRunning(d: Demo, t: Token, now: int)
    ensures RunningCount(ReleaseStart(d, t).previews, now) <= RunningCount(d.previews, now)
  {
    if Releasable(d, t) {
      QuietRunning(d, t.preview, ReleasedPreview(d.previews[t.preview]), now);
    }
  }

  predicate Admits(w: World, step: Step) {
    step.Start? && ReserveStart(w.demo, step.i, step.now).1.Started?
  }

  /** No step but an admitted start adds a running preview, at any instant. */
  lemma StepKeepsRunning(w: World, step: Step, instant: int)
    requires !Admits(w, step)
    ensures RunningCount(Apply(w, step).demo.previews, instant) <= RunningCount(w.demo.previews, instant)
  {
    hide RunningCount, ReserveStart, ReleaseStart;
    var d := w.demo;
    match step
    case Configure(_, _) =>
    case Create(p) => if FreshPreview(p) { FreshIsNotRunning(d.previews, p, instant); }
    case Start(i, now) => StartKeepsRunning(d, i, now);
    case Release(t) => ReleaseKeepsRunning(d, t, instant);
    case ConfirmStart(t, session) =>
      if Releasable(d, t) {
        QuietRunning(d, t.preview, d.previews[t.preview].(realtime := Some(session)), instant);
      }
    case Finish(i, session, at, until) =>
      if i < |d.previews| {
        QuietRunning(d, i, d.previews[i].(completedAt := Some(at), runtimeExpiresAt := Some(until)), instant);
      }
    case Rehearse(i, p) => if i < |d.previews| && !p.isDemo { QuietRunning(d, i, p, instant); }
    case Delete(i) => if i < |d.previews| { QuietRunning(d, i, d.previews[i].(deleted := true), instant); }
    case Revoke(i) => if i < |d.previews| { QuietRunning(d, i, d.previews[i].(revoked := true), instant); }
  }

  lemma FreshIsNotRunning(previews: seq<Preview>, p: Preview, now: int)
    requires FreshPreview(p)
    ensures RunningCount(previews + [p], now) == RunningCount(previews, now)
  {
    SumAppend(previews, p, Running(now));
  }

  lemma AppliedStart(w: World, i: nat, now: int)
    ensures Apply(w, Start(i, now)).demo == ReserveStart(w.demo, i, now).0
  {
  }

  /**
   * Over any run the cap holds at every instant from the latest start clock on, in whatever order the starts won the
   * lock after they read their clocks.
   */
  lemma {:induction false} ConcurrencyCapHolds(w: World, steps: seq<Step>, from: int, instant: int)
    requires RunningCount(w.demo.previews, from) <= w.demo.concurrentCap
    requires from <= instant && StartedBy(steps, instant)
    ensures RunningCount(Run(w, steps).demo.previews, instant) <= w.demo.concurrentCap
  {
    hide Apply, RunningCount, ReserveStart;
    if steps == [] {
      FewerRun(w.demo.previews, from, instant);
    } else {
      var n := |steps| - 1;
      var before, after := Run(w, steps[..n]), Run(w, steps);
      assert steps[n] in steps;
      RunKeepsCaps(w, steps[..n]);
      if Admits(before, steps[n]) {
        StartKeepsRunning(before.demo, steps[n].i, steps[n].now);
        AppliedStart(before, steps[n].i, steps[n].now);
        FewerRun(after.demo.previews, steps[n].now, instant);
      } else {
        ConcurrencyCapHolds(w, steps[..n], from, instant);
        StepKeepsRunning(before, steps[n], instant);
      }
    }
  }

  // ---- nothing is released after confirmation ----

  ghost predicate Confirmed(d: Demo, i: nat) {
    i < |d.previews| && d.previews[i].isDemo && d.previews[i].realtime.Some?
  }

  lemma StepKeepsConfirmed(w: World, step: Step, i: nat)
    requires Confirmed(w.demo, i)
    ensures Confirmed(Apply(w, step).demo, i)
  {
    hide RunningCount, SessionTaken, StartedCount;
  }

  /** Once a demo preview is bound to a realtime session, no later step unbinds it, so no release is effective on it. */
  lemma {:induction false} ConfirmedStaysStarted(w: World, steps: seq<Step>, t: Token)
    requires Confirmed(w.demo, t.preview)
    ensures var end := Run(w, steps);
            Confirmed(end.demo, t.preview) && !Releasable(end.demo, t) && ReleaseStart(end.demo, t) == end.demo
  {
    hide Apply;
    if steps != [] {
      ConfirmedStaysStarted(w, steps[..|steps| - 1], t);
      StepKeepsConfirmed(Run(w, steps[..|steps| - 1]), steps[|steps| - 1], t.preview);
    }
  }

  /** The empty deployment. */
  lemma EmptyIsOk(enabled: bool, concurrentCap: int, dailyCap: int, roles: map<RoleSlug, bool>)
    requires dailyCap >= 0
    ensures Inv(World(Demo(enabled, concurrentCap, dailyCap, roles, [], map[]), []))
  {
  }
}
