/** The Stripe event archive: archive first, act, then settle the row without ever erasing what an operator must see. */
module EventArchive {
  import opened Sums

  type EventId = int

  datatype Status = Received | Processed | Ignored | NeedsAdmin | Failed

  /** One archived event. */
  datatype Row = Row(
    kind: string,
    receivedAt: int,
    status: Status,
    firstError: Option<string>,
    attemptCount: nat,
    lastError: Option<string>,
    processedAt: Option<int>)

  /** What routing the event to its handler came to: one of three statuses, or a throw. */
  datatype Handled = Decided(status: Status) | Threw(message: string)

  predicate IsDecision(h: Handled) {
    h.Decided? ==> h.status == Processed || h.status == Ignored || h.status == NeedsAdmin
  }

  datatype Attempted<+T> = Value(value: T) | Raised(message: string)

  /** A decision or failure never moves a row the handler saw parked, except to parked. */
  function SettleStatus(prior: Status, computed: Status): Status {
    if prior != NeedsAdmin || computed == NeedsAdmin then computed else NeedsAdmin
  }

  /** The upsert that precedes every handler: a new row, or one more attempt on the old one. */
  function Archived(row: Option<Row>, kind: string, now: int): Row {
    if row.None? then Row(kind, now, Received, None, 1, None, None)
    else row.value.(attemptCount := row.value.attemptCount + 1)
  }

  /** The second write: `seen` is what the upsert returned, `row` is what the table holds by now. */
  function Settled(row: Row, seen: Row, handled: Handled, now: int): Row {
    match handled
    case Threw(message) =>
      row.(status := SettleStatus(seen.status, Failed),
           lastError := Some(message),
           firstError := if seen.firstError.None? then Some(message) else row.firstError)
    case Decided(computed) =>
      var status := SettleStatus(seen.status, computed);
      if status != computed then row.(status := status)
      else row.(status := status, lastError := None, processedAt := Some(now))
  }

  /** One delivery with no other in between. When the archive is down for the second write, only the attempt is counted. */
  function Delivered(row: Option<Row>, kind: string, handled: Handled, archiveUp: bool, now: int): Row {
    var archived := Archived(row, kind, now);
    if archiveUp then Settled(archived, archived, handled, now) else archived
  }

  /** What the dispatcher answers: a status, or the handler's own error, which asks Stripe to retry. */
  function Answer(row: Option<Row>, kind: string, handled: Handled, archiveUp: bool): Attempted<Status> {
    if handled.Threw? then Raised(handled.message)
    else if !archiveUp then Raised("archive unavailable")
    else Value(SettleStatus(if row.Some? then row.value.status else Received, handled.status))
  }

  /**
   * What the second write leaves. A failure leaves the row failed, or parked exactly if the delivery saw it parked, with
   * the error on record. A decision that was not refused leaves its own status, no live error and a stamp. A refused one
   * leaves the row parked and nothing else changed.
   */
  lemma SettledMeans(row: Row, seen: Row, handled: Handled, now: int)
    requires IsDecision(handled)
    ensures var end := Settled(row, seen, handled, now);
            && end.kind == row.kind && end.receivedAt == row.receivedAt && end.attemptCount == row.attemptCount
            && (handled.Threw? ==>
                  && end.status == (if seen.status == NeedsAdmin then NeedsAdmin else Failed)
                  && end.lastError == Some(handled.message) && end.processedAt == row.processedAt
                  && end.firstError == (if seen.firstError.None? then Some(handled.message) else row.firstError))
            && (handled.Decided? && (seen.status != NeedsAdmin || handled.status == NeedsAdmin) ==>
                  && end.status == handled.status && end.lastError == None && end.processedAt == Some(now)
                  && end.firstError == row.firstError)
            && (handled.Decided? && seen.status == NeedsAdmin && handled.status != NeedsAdmin ==>
                  end == row.(status := NeedsAdmin))
  {
  }

  /** The caller is told a status only when it was written, and the handler's own error otherwise. */
  lemma AnswerMeans(row: Option<Row>, kind: string, handled: Handled, archiveUp: bool, now: int)
    requires IsDecision(handled)
    ensures var answer, end := Answer(row, kind, handled, archiveUp), Delivered(row, kind, handled, archiveUp, now);
            && (answer.Value? <==> handled.Decided? && archiveUp)
            && (answer.Value? ==> end.status == answer.value)
            && (handled.Threw? ==> answer == Raised(handled.message))
            && end.attemptCount == (if row.Some? then row.value.attemptCount + 1 else 1)
            && (row.None? ==> end.kind == kind && end.receivedAt == now)
            && (!archiveUp ==> end.status == (if row.Some? then row.value.status else Received))
  {
  }

  // ---- deliveries of one event, one after the other ----

  datatype Delivery = Delivery(handled: Handled, archiveUp: bool, now: int)

  function History(row: Option<Row>, kind: string, deliveries: seq<Delivery>): Option<Row> {
    if deliveries == [] then row
    else
      var d := deliveries[|deliveries| - 1];
      Some(Delivered(History(row, kind, deliveries[..|deliveries| - 1]), kind, d.handled, d.archiveUp, d.now))
  }

  predicate ErrorsOk(row: Row) {
    row.lastError.Some? ==> row.firstError.Some?
  }

  /** What no delivery ever undoes. */
  predicate Keeps(was: Row, now: Row) {
    && (was.status == NeedsAdmin ==> now.status == NeedsAdmin)
    && (was.firstError.Some? ==> now.firstError == was.firstError)
    && was.attemptCount <= now.attemptCount
    && (was.processedAt.Some? ==> now.processedAt.Some?)
    && now.kind == was.kind && now.receivedAt == was.receivedAt
  }

  lemma DeliveryKeeps(row: Row, kind: string, d: Delivery)
    requires ErrorsOk(row)
    ensures var after := Delivered(Some(row), kind, d.handled, d.archiveUp, d.now);
            && ErrorsOk(after) && Keeps(row, after) && after.attemptCount == row.attemptCount + 1
            && (after.lastError.None? && row.lastError.Some? ==>
                  d.handled.Decided? && after.status == d.handled.status && after.processedAt == Some(d.now))
            && (row.status == NeedsAdmin && d.handled != Decided(NeedsAdmin) ==>
                  after.processedAt == row.processedAt && (d.handled.Decided? ==> after.lastError == row.lastError))
  {
  }

  /**
   * Over any deliveries and failures in sequence: a parked row stays parked, the first error is never rewritten, a
   * recorded last error always has a first one, and every delivery is counted.
   */
  lemma {:induction false} HistoryKeeps(row: Row, kind: string, deliveries: seq<Delivery>)
    requires ErrorsOk(row)
    ensures var end := History(Some(row), kind, deliveries);
            && end.Some? && ErrorsOk(end.value) && Keeps(row, end.value)
            && end.value.attemptCount == row.attemptCount + |deliveries|
  {
    if deliveries != [] {
      var n := |deliveries| - 1;
      HistoryKeeps(row, kind, deliveries[..n]);
      DeliveryKeeps(History(Some(row), kind, deliveries[..n]).value, kind, deliveries[n]);
    }
  }

  /** A refused transition leaves the row's live failure signal and its processing stamp alone, all the way down the run. */
  lemma {:induction false} ParkedSignalsSurvive(row: Row, kind: string, deliveries: seq<Delivery>)
    requires row.status == NeedsAdmin
    requires forall d | d in deliveries :: d.handled != Decided(NeedsAdmin)
    ensures var end := History(Some(row), kind, deliveries).value;
            && end.status == NeedsAdmin && end.processedAt == row.processedAt
            && (row.lastError.Some? ==> end.lastError.Some?)
  {
    if deliveries != [] {
      var n := |deliveries| - 1;
      assert deliveries[n] in deliveries;
      ParkedSignalsSurvive(row, kind, deliveries[..n]);
    }
  }

  // ---- deliveries that overlap ----

  /** What some delivery saw of its row when it archived the event; the attempt count tells the deliveries apart. */
  datatype Sighting = Sighting(id: EventId, row: Row)

  /** The table, and what each delivery that is still open saw of it. */
  datatype Archive = Archive(rows: map<EventId, Row>, open: set<Sighting>)

  /**
   * The two writes of a delivery, which any other delivery or reprocess pass may come between. A delivery that crashes or
   * finds the archive down loses its second write.
   */
  datatype Step =
    | Upsert(id: EventId, kind: string, now: int)
    | Settle(id: EventId, seen: Row, handled: Handled, now: int)
    | Lose(id: EventId, seen: Row)

  function Lookup(rows: map<EventId, Row>, id: EventId): Option<Row> {
    if id in rows then Some(rows[id]) else None
  }

  /** Only an open delivery settles, with what it saw itself. */
  predicate Enabled(s: Archive, step: Step) {
    step.Settle? ==> Sighting(step.id, step.seen) in s.open && step.id in s.rows && IsDecision(step.handled)
  }

  function Apply(s: Archive, step: Step): Archive {
    match step
    case Upsert(id, kind, now) =>
      var row := Archived(Lookup(s.rows, id), kind, now);
      Archive(s.rows[id := row], s.open + {Sighting(id, row)})
    case Settle(id, seen, handled, now) =>
      if Enabled(s, step) then
        Archive(s.rows[id := Settled(s.rows[id], seen, handled, now)], s.open - {Sighting(id, seen)})
      else s
    case Lose(id, seen) => s.(open := s.open - {Sighting(id, seen)})
  }

  function Run(s: Archive, steps: seq<Step>): Archive {
    if steps == [] then s else Apply(Run(s, steps[..|steps| - 1]), steps[|steps| - 1])
  }

  const EMPTY_ARCHIVE := Archive(map[], {})

  /** A sighting is of an earlier state of the row: a first error seen then is there now. */
  predicate SightingOk(rows: map<EventId, Row>, x: Sighting) {
    && x.id in rows && x.row.attemptCount <= rows[x.id].attemptCount
    && (x.row.firstError.Some? ==> rows[x.id].firstError.Some?)
  }

  /** A row says it is dealt with only when it carries a stamp, failed only with an error, received only when untouched. */
  predicate StatusOk(row: Row) {
    && (row.status == Processed || row.status == Ignored ==> row.processedAt.Some?)
    && (row.status == Failed ==> row.lastError.Some?)
    && (row.status == Received ==> row.firstError.None? && row.lastError.None? && row.processedAt.None?)
    && row.attemptCount >= 1
  }

  ghost predicate ArchiveOk(s: Archive) {
    && (forall id | id in s.rows :: ErrorsOk(s.rows[id]) && StatusOk(s.rows[id]))
    && (forall x | x in s.open :: SightingOk(s.rows, x))
  }

  /** No two deliveries of an event ever see the same row, so a sighting names its delivery. */
  lemma SightingsTellApart(s: Archive, id: EventId, kind: string, now: int)
    requires ArchiveOk(s)
    ensures Sighting(id, Archived(Lookup(s.rows, id), kind, now)) !in s.open
  {
    var x := Sighting(id, Archived(Lookup(s.rows, id), kind, now));
    assert x in s.open ==> SightingOk(s.rows, x);
  }

  /** What no overlap can undo. */
  predicate Lasts(was: Row, now: Row) {
    && now.kind == was.kind && now.receivedAt == was.receivedAt && was.attemptCount <= now.attemptCount
    && (was.firstError.Some? ==> now.firstError.Some?)
    && (was.processedAt.Some? ==> now.processedAt.Some?)
  }

  function UpsertsOf(steps: seq<Step>, id: EventId): nat {
    if steps == [] then 0
    else UpsertsOf(steps[..|steps| - 1], id) + (if steps[|steps| - 1].Upsert? && steps[|steps| - 1].id == id then 1 else 0)
  }

  lemma StepLasts(s: Archive, step: Step, id: EventId)
    requires ArchiveOk(s)
    ensures ArchiveOk(Apply(s, step))
    ensures id in s.rows ==>
              && id in Apply(s, step).rows && Lasts(s.rows[id], Apply(s, step).rows[id])
              && Apply(s, step).rows[id].attemptCount == s.rows[id].attemptCount + (if step.Upsert? && step.id == id then 1 else 0)
  {
    if Enabled(s, step) && step.Settle? {
      assert SightingOk(s.rows, Sighting(step.id, step.seen));
      assert ErrorsOk(s.rows[step.id]) && StatusOk(s.rows[step.id]);
    }
  }

  /**
   * Over any interleaving of any deliveries: a last error always has a first one, neither a first error nor a processing
   * stamp ever disappears, each delivery of the event is counted exactly once, settled or not, and no row is processed or
   * ignored without a stamp, nor failed without an error.
   */
  lemma {:induction false} InterleavingsKeep(s: Archive, steps: seq<Step>, id: EventId)
    requires ArchiveOk(s)
    ensures var end := Run(s, steps);
            && ArchiveOk(end)
            && (id in s.rows ==>
                  && id in end.rows && Lasts(s.rows[id], end.rows[id])
                  && ErrorsOk(end.rows[id]) && StatusOk(end.rows[id])
                  && end.rows[id].attemptCount == s.rows[id].attemptCount + UpsertsOf(steps, id))
  {
    hide Apply, ArchiveOk;
    if steps == [] {
      RowsOk(s, id);
    } else {
      var n := |steps| - 1;
      InterleavingsKeep(s, steps[..n], id);
      StepLasts(Run(s, steps[..n]), steps[n], id);
      RowsOk(Run(s, steps), id);
    }
  }

  lemma RowsOk(s: Archive, id: EventId)
    requires ArchiveOk(s)
    ensures id in s.rows ==> ErrorsOk(s.rows[id]) && StatusOk(s.rows[id])
  {
  }

  /** From the empty archive, in whatever order deliveries and failures arrive, a row that looks dealt with was decided. */
  lemma DealtWithIsStamped(steps: seq<Step>, id: EventId)
    requires id in Run(EMPTY_ARCHIVE, steps).rows
    ensures var row := Run(EMPTY_ARCHIVE, steps).rows[id];
            && (row.status == Processed || row.status == Ignored ==> row.processedAt.Some?)
            && (row.status == Failed ==> row.lastError.Some? && row.firstError.Some?)
            && (row.status == Received ==> row.firstError.None? && row.lastError.None? && row.processedAt.None?)
            && row.attemptCount >= 1
  {
    hide Run;
    InterleavingsKeep(EMPTY_ARCHIVE, steps, id);
    RowsOk(Run(EMPTY_ARCHIVE, steps), id);
  }

  // ---- what an overlap can undo, and exactly when ----

  predicate Parked(s: Archive, id: EventId) {
    id in s.rows && s.rows[id].status == NeedsAdmin
  }

  /** A delivery that saw the row before it was parked settles it otherwise. */
  predicate Unparks(s: Archive, step: Step, id: EventId) {
    && step.Settle? && step.id == id && Enabled(s, step)
    && step.seen.status != NeedsAdmin && step.handled != Decided(NeedsAdmin)
  }

  lemma StepUnparksIff(s: Archive, step: Step, id: EventId)
    requires Parked(s, id)
    ensures !Parked(Apply(s, step), id) <==> Unparks(s, step, id)
  {
  }

  /** Along the whole run a parked row stays parked if and only if no settle in it unparks. */
  lemma {:induction false} ParkedThroughoutIff(s: Archive, steps: seq<Step>, id: EventId)
    requires Parked(s, id)
    ensures (forall k: nat | k <= |steps| :: Parked(Run(s, steps[..k]), id)) <==>
            (forall k: nat | k < |steps| :: !Unparks(Run(s, steps[..k]), steps[k], id))
  {
    hide Parked, Unparks, Apply;
    forall k: nat | k < |steps| ensures Run(s, steps[..k + 1]) == Apply(Run(s, steps[..k]), steps[k]) {
      assert steps[..k + 1][..k] == steps[..k];
    }
    if forall k: nat | k < |steps| :: !Unparks(Run(s, steps[..k]), steps[k], id) {
      forall k: nat | k <= |steps| ensures Parked(Run(s, steps[..k]), id) {
        ParkedUpTo(s, steps, k, id);
      }
    } else {
      var k: nat :| k < |steps| && Unparks(Run(s, steps[..k]), steps[k], id);
      if Parked(Run(s, steps[..k]), id) {
        StepUnparksIff(Run(s, steps[..k]), steps[k], id);
      }
      assert !Parked(Run(s, steps[..k]), id) || !Parked(Run(s, steps[..k + 1]), id);
    }
  }

  lemma {:induction false} ParkedUpTo(s: Archive, steps: seq<Step>, n: nat, id: EventId)
    requires Parked(s, id) && n <= |steps|
    requires forall k: nat | k < n :: !Unparks(Run(s, steps[..k]), steps[k], id)
    ensures Parked(Run(s, steps[..n]), id)
  {
    hide Parked, Unparks, Apply;
    if n > 0 {
      ParkedUpTo(s, steps, n - 1, id);
      assert steps[..n][..n - 1] == steps[..n - 1];
      StepUnparksIff(Run(s, steps[..n - 1]), steps[n - 1], id);
    } else {
      assert steps[..0] == [];
    }
  }

  /** The row is parked, and every open delivery of the event saw it so; with none open there is nothing to ask. */
  ghost predicate SeenParked(s: Archive, id: EventId) {
    Parked(s, id) && forall x | x in s.open && x.id == id :: x.row.status == NeedsAdmin
  }

  /** A row that no open delivery saw unparked stays parked whatever arrives later, in any interleaving. */
  lemma {:induction false} SeenParkedStaysParked(s: Archive, steps: seq<Step>, id: EventId)
    requires SeenParked(s, id)
    ensures SeenParked(Run(s, steps), id)
  {
    hide Apply, SeenParked;
    if steps != [] {
      var n := |steps| - 1;
      SeenParkedStaysParked(s, steps[..n], id);
      StepKeepsSeenParked(Run(s, steps[..n]), steps[n], id);
    }
  }

  lemma StepKeepsSeenParked(s: Archive, step: Step, id: EventId)
    requires SeenParked(s, id)
    ensures SeenParked(Apply(s, step), id)
  {
  }

  /** The row has this first error. */
  predicate FirstErrorIs(s: Archive, id: EventId, message: string) {
    id in s.rows && s.rows[id].firstError == Some(message)
  }

  /** A delivery that saw no first error fails, with another message than the one recorded meanwhile. */
  predicate Rewrites(s: Archive, step: Step, id: EventId, message: string) {
    && step.Settle? && step.id == id && Enabled(s, step)
    && step.seen.firstError.None? && step.handled.Threw? && step.handled.message != message
  }

  lemma StepRewritesIff(s: Archive, step: Step, id: EventId, message: string)
    requires FirstErrorIs(s, id, message)
    ensures !FirstErrorIs(Apply(s, step), id, message) <==> Rewrites(s, step, id, message)
  {
  }

  /** Along the whole run the first error stays as it was if and only if no settle in it rewrites. */
  lemma {:induction false} FirstErrorThroughoutIff(s: Archive, steps: seq<Step>, id: EventId, message: string)
    requires FirstErrorIs(s, id, message)
    ensures (forall k: nat | k <= |steps| :: FirstErrorIs(Run(s, steps[..k]), id, message)) <==>
            (forall k: nat | k < |steps| :: !Rewrites(Run(s, steps[..k]), steps[k], id, message))
  {
    hide FirstErrorIs, Rewrites, Apply;
    forall k: nat | k < |steps| ensures Run(s, steps[..k + 1]) == Apply(Run(s, steps[..k]), steps[k]) {
      assert steps[..k + 1][..k] == steps[..k];
    }
    if forall k: nat | k < |steps| :: !Rewrites(Run(s, steps[..k]), steps[k], id, message) {
      forall k: nat | k <= |steps| ensures FirstErrorIs(Run(s, steps[..k]), id, message) {
        FirstErrorUpTo(s, steps, k, id, message);
      }
    } else {
      var k: nat :| k < |steps| && Rewrites(Run(s, steps[..k]), steps[k], id, message);
      if FirstErrorIs(Run(s, steps[..k]), id, message) {
        StepRewritesIff(Run(s, steps[..k]), steps[k], id, message);
      }
      assert !FirstErrorIs(Run(s, steps[..k]), id, message) || !FirstErrorIs(Run(s, steps[..k + 1]), id, message);
    }
  }

  lemma {:induction false} FirstErrorUpTo(s: Archive, steps: seq<Step>, n: nat, id: EventId, message: string)
    requires FirstErrorIs(s, id, message) && n <= |steps|
    requires forall k: nat | k < n :: !Rewrites(Run(s, steps[..k]), steps[k], id, message)
    ensures FirstErrorIs(Run(s, steps[..n]), id, message)
  {
    hide FirstErrorIs, Rewrites, Apply;
    if n > 0 {
      FirstErrorUpTo(s, steps, n - 1, id, message);
      assert steps[..n][..n - 1] == steps[..n - 1];
      StepRewritesIff(Run(s, steps[..n - 1]), steps[n - 1], id, message);
    } else {
      assert steps[..0] == [];
    }
  }

  /** The row has this first error, and every open delivery of the event saw one. */
  ghost predicate SeenFailed(s: Archive, id: EventId, message: string) {
    FirstErrorIs(s, id, message) && forall x | x in s.open && x.id == id :: x.row.firstError.Some?
  }

  /** A first error that every open delivery has seen is never rewritten, in any interleaving. */
  lemma {:induction false} SeenFirstErrorIsFinal(s: Archive, steps: seq<Step>, id: EventId, message: string)
    requires SeenFailed(s, id, message)
    ensures SeenFailed(Run(s, steps), id, message)
  {
    hide Apply, SeenFailed;
    if steps != [] {
      var n := |steps| - 1;
      SeenFirstErrorIsFinal(s, steps[..n], id, message);
      StepKeepsSeenFailed(Run(s, steps[..n]), steps[n], id, message);
    }
  }

  lemma StepKeepsSeenFailed(s: Archive, step: Step, id: EventId, message: string)
    requires SeenFailed(s, id, message)
    ensures SeenFailed(Apply(s, step), id, message)
  {
  }

  /** A live failure signal goes away exactly when a decision sticks: one the delivery did not see refused. */
  lemma StepClearsIff(s: Archive, step: Step, id: EventId)
    requires id in s.rows && s.rows[id].lastError.Some?
    ensures var end := Apply(s, step);
            && id in end.rows
            && (end.rows[id].lastError.None? <==>
                  step.Settle? && step.id == id && Enabled(s, step) && step.handled.Decided?
                  && (step.seen.status == NeedsAdmin ==> step.handled.status == NeedsAdmin))
  {
  }

  // ---- two overlaps that do ----

  const FIRST_SEEN := Row("checkout.session.completed", 0, Received, None, 1, None, None)
  const SECOND_SEEN := FIRST_SEEN.(attemptCount := 2)

  /** Two deliveries of event 7 archive it, then settle it, the later one first. */
  function Overlap(late: Handled, early: Handled): seq<Step> {
    [Upsert(7, "checkout.session.completed", 0), Upsert(7, "checkout.session.completed", 1),
     Settle(7, SECOND_SEEN, late, 2), Settle(7, FIRST_SEEN, early, 3)]
  }

  lemma RunOneMore(s: Archive, steps: seq<Step>, step: Step)
    ensures Run(s, steps + [step]) == Apply(Run(s, steps), step)
  {
    assert (steps + [step])[..|steps|] == steps;
  }

  lemma OverlapRuns(late: Handled, early: Handled)
    requires IsDecision(late) && IsDecision(early)
    ensures var mid := Run(EMPTY_ARCHIVE, Overlap(late, early)[..3]);
            mid.rows == map[7 := Settled(SECOND_SEEN, SECOND_SEEN, late, 2)]
    ensures var mid := Run(EMPTY_ARCHIVE, Overlap(late, early)[..3]);
            && mid.rows == map[7 := Settled(SECOND_SEEN, SECOND_SEEN, late, 2)]
            && Run(EMPTY_ARCHIVE, Overlap(late, early)).rows == map[7 := Settled(mid.rows[7], FIRST_SEEN, early, 3)]
  {
    var steps := Overlap(late, early);
    hide Run, Settled;
    assert steps[..1] == [] + [steps[0]] && steps[..2] == steps[..1] + [steps[1]];
    assert steps[..3] == steps[..2] + [steps[2]] && steps == steps[..3] + [steps[3]];
    RunNothing(EMPTY_ARCHIVE);
    RunOneMore(EMPTY_ARCHIVE, [], steps[0]);
    RunOneMore(EMPTY_ARCHIVE, steps[..1], steps[1]);
    RunOneMore(EMPTY_ARCHIVE, steps[..2], steps[2]);
    RunOneMore(EMPTY_ARCHIVE, steps[..3], steps[3]);
    var two := Run(EMPTY_ARCHIVE, steps[..2]);
    assert two.rows == map[7 := SECOND_SEEN] && two.open == {Sighting(7, FIRST_SEEN), Sighting(7, SECOND_SEEN)};
  }

  lemma RunNothing(s: Archive)
    ensures Run(s, []) == s
  {
  }

  /** The later delivery parks the row, and the earlier one, which had seen it before, closes it. */
  lemma ParkedRowIsClosed()
    ensures var steps := Overlap(Decided(NeedsAdmin), Decided(Processed));
            && Parked(Run(EMPTY_ARCHIVE, steps[..3]), 7)
            && 7 in Run(EMPTY_ARCHIVE, steps).rows
            && Run(EMPTY_ARCHIVE, steps).rows[7].status == Processed
            && Run(EMPTY_ARCHIVE, steps).rows[7].processedAt == Some(3)
  {
    hide Run;
    OverlapRuns(Decided(NeedsAdmin), Decided(Processed));
  }

  /** Both fail: the first error recorded is overwritten by the other one. */
  lemma FirstErrorIsReplaced()
    ensures var steps := Overlap(Threw("x"), Threw("y"));
            && FirstErrorIs(Run(EMPTY_ARCHIVE, steps[..3]), 7, "x")
            && FirstErrorIs(Run(EMPTY_ARCHIVE, steps), 7, "y")
  {
    hide Run;
    OverlapRuns(Threw("x"), Threw("y"));
  }

  // ---- one delivery among others ----

  lemma {:induction false} RunConcat(s: Archive, a: seq<Step>, b: seq<Step>)
    ensures Run(s, a + b) == Run(Run(s, a), b)
  {
    if b == [] {
      assert a + b == a;
    } else {
      var n := |b| - 1;
      RunConcat(s, a, b[..n]);
      assert a + b == (a + b[..n]) + [b[n]];
      RunOneMore(s, a + b[..n], b[n]);
    }
  }

  /** The writes of one delivery, with whatever others write between them. */
  function DeliverySteps(
    rows: map<EventId, Row>, id: EventId, kind: string, handled: Handled, archiveUp: bool, now: int, meanwhile: seq<Step>)
    : seq<Step>
  {
    var saw := Archived(Lookup(rows, id), kind, now);
    [Upsert(id, kind, now)] + meanwhile + [if archiveUp then Settle(id, saw, handled, now) else Lose(id, saw)]
  }

  /** None of the steps closes this delivery: its second write is its own to make. */
  predicate LeaveOpen(steps: seq<Step>, x: Sighting) {
    forall step | step in steps :: step.Upsert? || Sighting(step.id, step.seen) != x
  }

  lemma {:induction false} StaysOpen(s: Archive, steps: seq<Step>, x: Sighting)
    requires x in s.open && x.id in s.rows && LeaveOpen(steps, x)
    ensures x in Run(s, steps).open && x.id in Run(s, steps).rows
  {
    if steps != [] {
      assert steps[|steps| - 1] in steps;
      StaysOpen(s, steps[..|steps| - 1], x);
    }
  }

  /** With nobody in between, the two writes are the one delivery in sequence. */
  lemma DeliveryAlone(s: Archive, id: EventId, kind: string, handled: Handled, archiveUp: bool, now: int)
    requires IsDecision(handled)
    ensures Run(s, DeliverySteps(s.rows, id, kind, handled, archiveUp, now, [])).rows ==
            s.rows[id := Delivered(Lookup(s.rows, id), kind, handled, archiveUp, now)]
  {
    var upsert := Upsert(id, kind, now);
    RunOneMore(s, [], upsert);
    assert [] + [upsert] == [upsert];
    var row := Archived(Lookup(s.rows, id), kind, now);
    var last := if archiveUp then Settle(id, row, handled, now) else Lose(id, row);
    RunOneMore(s, [upsert], last);
    assert DeliverySteps(s.rows, id, kind, handled, archiveUp, now, []) == [upsert] + [last];
    assert s.rows[id := row][id := Settled(row, row, handled, now)] == s.rows[id := Settled(row, row, handled, now)];
  }

  // ---- a reprocess pass ----

  /** The rows a reprocess pass may pick up. */
  predicate Reprocessable(row: Row, kinds: set<string>) {
    row.status == Ignored && row.kind in kinds
  }

  /** What the query answers: ignored rows of those kinds, each once, oldest first, and no older one left out. */
  ghost predicate OldestIgnored(rows: map<EventId, Row>, kinds: set<string>, limit: nat, ids: seq<EventId>) {
    && |ids| <= limit
    && (forall i, j | 0 <= i < j < |ids| :: ids[i] != ids[j])
    && (forall id | id in ids :: id in rows && Reprocessable(rows[id], kinds))
    && (forall i, j | 0 <= i < j < |ids| :: rows[ids[i]].receivedAt <= rows[ids[j]].receivedAt)
    && (forall id, k | id in rows && Reprocessable(rows[id], kinds) && id !in ids && 0 <= k < |ids| ::
          rows[ids[k]].receivedAt <= rows[id].receivedAt)
    && (|ids| < limit ==> forall id | id in rows && Reprocessable(rows[id], kinds) :: id in ids)
  }

  /**
   * One selected row: whether its payload is the event it claims to be, what its handler will do, and what others write
   * before the pass comes to it and while its handler runs.
   */
  datatype Work = Work(
    id: EventId, intact: bool, handled: Handled, archiveUp: bool, now: int, before: seq<Step>, meanwhile: seq<Step>)

  function Ids(batch: seq<Work>): seq<EventId> {
    seq(|batch|, i requires 0 <= i < |batch| => batch[i].id)
  }

  function KindOf(rows: map<EventId, Row>, id: EventId): string {
    if id in rows then rows[id].kind else ""
  }

  /** A malformed row is never handed to a handler. */
  function WorkSteps(rows: map<EventId, Row>, w: Work): seq<Step> {
    if w.intact then DeliverySteps(rows, w.id, KindOf(rows, w.id), w.handled, w.archiveUp, w.now, w.meanwhile) else []
  }

  /** What the delivery of the row sees when it archives the event. */
  function SightingOf(rows: map<EventId, Row>, w: Work): Sighting {
    Sighting(w.id, Archived(Lookup(rows, w.id), KindOf(rows, w.id), w.now))
  }

  /** The state in which the pass comes to its n-th row. */
  function Reached(s: Archive, batch: seq<Work>, n: nat): Archive
    requires n < |batch|
    decreases n, 1
  {
    Run(s, PassSteps(s, batch, n) + batch[n].before)
  }

  /** Everything written until the first n rows are done. */
  function PassSteps(s: Archive, batch: seq<Work>, n: nat): seq<Step>
    requires n <= |batch|
    decreases n, 0
  {
    if n == 0 then []
    else PassSteps(s, batch, n - 1) + batch[n - 1].before + WorkSteps(Reached(s, batch, n - 1).rows, batch[n - 1])
  }

  datatype Report = Report(reprocessed: nat, processed: nat, needsAdmin: nat, stillIgnored: nat, failed: nat)

  /** Where a selected row ends up: each row has exactly one fate. */
  datatype Fate = BecameProcessed | BecameParked | StillIgnored | CouldNot

  function FateOf(row: Option<Row>, w: Work): Fate {
    if !w.intact then CouldNot
    else
      match Answer(row, "", w.handled, w.archiveUp)
      case Raised(_) => CouldNot
      case Value(status) =>
        if status == Processed then BecameProcessed else if status == NeedsAdmin then BecameParked else StillIgnored
  }

  /** How many of the first n rows met the fate when the pass came to them. */
  function WithFate(s: Archive, batch: seq<Work>, n: nat, fate: Fate): nat
    requires n <= |batch|
  {
    if n == 0 then 0
    else
      WithFate(s, batch, n - 1, fate) +
      (if FateOf(Lookup(Reached(s, batch, n - 1).rows, batch[n - 1].id), batch[n - 1]) == fate then 1 else 0)
  }

  function IntactAmong(batch: seq<Work>, n: nat): nat
    requires n <= |batch|
  {
    if n == 0 then 0 else IntactAmong(batch, n - 1) + (if batch[n - 1].intact then 1 else 0)
  }

  /** The report counts each of the first n rows once, under the fate it met. */
  ghost predicate Tallies(r: Report, s: Archive, batch: seq<Work>, n: nat)
    requires n <= |batch|
  {
    && r.processed == WithFate(s, batch, n, BecameProcessed)
    && r.needsAdmin == WithFate(s, batch, n, BecameParked)
    && r.stillIgnored == WithFate(s, batch, n, StillIgnored)
    && r.failed == WithFate(s, batch, n, CouldNot)
    && r.processed + r.needsAdmin + r.stillIgnored + r.failed == n
    && r.reprocessed == IntactAmong(batch, n)
  }

  /** Every intact row is counted as reprocessed, every other one as failed. */
  lemma {:induction false} MalformedRowsFail(s: Archive, batch: seq<Work>, n: nat)
    requires n <= |batch|
    ensures n - IntactAmong(batch, n) <= WithFate(s, batch, n, CouldNot) <= n
  {
    hide Reached;
    if n > 0 {
      MalformedRowsFail(s, batch, n - 1);
    }
  }

  function Counted(r: Report, intact: bool, fate: Fate): Report {
    var seen := if intact then r.(reprocessed := r.reprocessed + 1) else r;
    match fate
    case BecameProcessed => seen.(processed := r.processed + 1)
    case BecameParked => seen.(needsAdmin := r.needsAdmin + 1)
    case StillIgnored => seen.(stillIgnored := r.stillIgnored + 1)
    case CouldNot => seen.(failed := r.failed + 1)
  }

  lemma OneMoreRow(r: Report, s: Archive, batch: seq<Work>, n: nat)
    requires n < |batch| && Tallies(r, s, batch, n)
    ensures var w := batch[n];
            Tallies(Counted(r, w.intact, FateOf(Lookup(Reached(s, batch, n).rows, w.id), w)), s, batch, n + 1)
  {
    hide FateOf, Reached;
  }

  /** The row after an undisturbed pass. */
  function After(row: Row, w: Work): Row {
    if w.intact then Delivered(Some(row), row.kind, w.handled, w.archiveUp, w.now) else row
  }

  /** A row leaves the queue unless it was malformed, could not be settled, or was decided ignored once more. */
  lemma SelectedAgainIff(row: Row, kinds: set<string>, w: Work)
    requires Reprocessable(row, kinds) && IsDecision(w.handled)
    ensures Reprocessable(After(row, w), kinds) <==> !w.intact || !w.archiveUp || w.handled == Decided(Ignored)
  {
  }

  /** In an undisturbed pass a row is counted by what became of it. */
  lemma FateIsFinalStatus(row: Row, kinds: set<string>, w: Work)
    requires Reprocessable(row, kinds) && IsDecision(w.handled)
    ensures var fate, end := FateOf(Some(row), w), After(row, w).status;
            && (fate == CouldNot <==> !w.intact || !w.archiveUp || w.handled.Threw?)
            && (fate == BecameProcessed ==> end == Processed)
            && (fate == BecameParked ==> end == NeedsAdmin)
            && (fate == StillIgnored ==> end == Ignored)
            && (w.intact && w.archiveUp && w.handled.Threw? ==> end == Failed)
  {
  }

  predicate Alone(w: Work) {
    w.before == [] && w.meanwhile == [] && IsDecision(w.handled)
  }

  /** Which of the first n rows of the batch this id is. */
  ghost predicate Done(batch: seq<Work>, n: nat, id: EventId)
    requires n <= |batch|
  {
    exists k :: 0 <= k < n && batch[k].id == id
  }

  ghost predicate DoneRows(was: map<EventId, Row>, now: map<EventId, Row>, batch: seq<Work>, n: nat)
    requires n <= |batch|
  {
    && now.Keys == was.Keys
    && (forall k | 0 <= k < n :: batch[k].id in was && now[batch[k].id] == After(was[batch[k].id], batch[k]))
    && (forall id | id in was && !Done(batch, n, id) :: now[id] == was[id])
  }

  lemma WorkAlone(s: Archive, w: Work)
    requires Alone(w) && w.id in s.rows
    ensures Run(s, WorkSteps(s.rows, w)).rows == s.rows[w.id := After(s.rows[w.id], w)]
  {
    if w.intact {
      DeliveryAlone(s, w.id, KindOf(s.rows, w.id), w.handled, w.archiveUp, w.now);
    } else {
      assert s.rows[w.id := s.rows[w.id]] == s.rows;
    }
  }

  lemma OneMoreIsDone(batch: seq<Work>, n: nat, id: EventId)
    requires n < |batch|
    ensures Done(batch, n + 1, id) <==> Done(batch, n, id) || batch[n].id == id
  {
  }

  lemma DoneIsSelected(batch: seq<Work>, id: EventId)
    ensures Done(batch, |batch|, id) <==> id in Ids(batch)
  {
    assert forall k | 0 <= k < |batch| :: Ids(batch)[k] == batch[k].id;
  }

  lemma OneMoreDone(was: map<EventId, Row>, now: map<EventId, Row>, batch: seq<Work>, n: nat)
    requires n < |batch| && DoneRows(was, now, batch, n) && batch[n].id in was
    requires forall k | 0 <= k < n :: batch[k].id != batch[n].id
    ensures DoneRows(was, now[batch[n].id := After(now[batch[n].id], batch[n])], batch, n + 1)
  {
    hide After;
    var id := batch[n].id;
    var next := now[id := After(now[id], batch[n])];
    assert !Done(batch, n, id);
    forall x | x in was && !Done(batch, n + 1, x) ensures next[x] == was[x] {
      OneMoreIsDone(batch, n, x);
    }
    assert next.Keys == was.Keys;
  }

  lemma {:induction false} PassAloneUpTo(s: Archive, batch: seq<Work>, n: nat)
    requires n <= |batch| && (forall w | w in batch :: Alone(w) && w.id in s.rows)
    requires forall i, j | 0 <= i < j < |batch| :: batch[i].id != batch[j].id
    ensures DoneRows(s.rows, Run(s, PassSteps(s, batch, n)).rows, batch, n)
  {
    hide DoneRows, WorkSteps, After;
    if n == 0 {
      NothingDone(s, batch);
    } else {
      var w := batch[n - 1];
      assert w in batch;
      PassAloneUpTo(s, batch, n - 1);
      var sofar := PassSteps(s, batch, n - 1);
      assert sofar + w.before == sofar;
      var before := Run(s, sofar);
      RunConcat(s, sofar, WorkSteps(before.rows, w));
      assert PassSteps(s, batch, n) == sofar + WorkSteps(before.rows, w);
      SameRows(s.rows, before.rows, batch, n - 1);
      WorkAlone(before, w);
      OneMoreDone(s.rows, before.rows, batch, n - 1);
    }
  }

  lemma NothingDone(s: Archive, batch: seq<Work>)
    ensures DoneRows(s.rows, Run(s, PassSteps(s, batch, 0)).rows, batch, 0)
  {
  }

  lemma SameRows(was: map<EventId, Row>, now: map<EventId, Row>, batch: seq<Work>, n: nat)
    requires n <= |batch| && DoneRows(was, now, batch, n)
    ensures now.Keys == was.Keys
  {
  }

  /**
   * An undisturbed pass delivers every intact selected row exactly once and touches no other row, and a row qualifies
   * for the next pass exactly when it was malformed, could not be settled, or was ignored again.
   */
  lemma UndisturbedPass(s: Archive, kinds: set<string>, limit: nat, batch: seq<Work>)
    requires OldestIgnored(s.rows, kinds, limit, Ids(batch)) && forall w | w in batch :: Alone(w)
    ensures var end := Run(s, PassSteps(s, batch, |batch|)).rows;
            && end.Keys == s.rows.Keys
            && (forall id | id in s.rows && id !in Ids(batch) :: end[id] == s.rows[id])
            && (forall w | w in batch ::
                  && w.id in s.rows && end[w.id] == After(s.rows[w.id], w)
                  && (Reprocessable(end[w.id], kinds) <==> !w.intact || !w.archiveUp || w.handled == Decided(Ignored)))
  {
    SelectedOnce(s.rows, kinds, limit, batch);
    hide OldestIgnored, PassSteps, Run, After, Reprocessable;
    PassAloneUpTo(s, batch, |batch|);
    var end := Run(s, PassSteps(s, batch, |batch|)).rows;
    forall w | w in batch
      ensures w.id in s.rows && end[w.id] == After(s.rows[w.id], w)
      ensures Reprocessable(end[w.id], kinds) <==> !w.intact || !w.archiveUp || w.handled == Decided(Ignored)
    {
      var k :| 0 <= k < |batch| && batch[k] == w;
      SelectedAgainIff(s.rows[w.id], kinds, w);
    }
    forall id | id in s.rows && id !in Ids(batch) ensures end[id] == s.rows[id] {
      DoneIsSelected(batch, id);
    }
  }

  lemma SelectedOnce(rows: map<EventId, Row>, kinds: set<string>, limit: nat, batch: seq<Work>)
    requires OldestIgnored(rows, kinds, limit, Ids(batch))
    ensures forall i, j | 0 <= i < j < |batch| :: batch[i].id != batch[j].id
    ensures forall w | w in batch :: w.id in rows && Reprocessable(rows[w.id], kinds)
  {
    var ids := Ids(batch);
    forall i, j | 0 <= i < j < |batch| ensures batch[i].id != batch[j].id {
      assert ids[i] != ids[j];
    }
    forall w | w in batch ensures w.id in rows && Reprocessable(rows[w.id], kinds) {
      var k :| 0 <= k < |batch| && batch[k] == w;
      assert ids[k] in ids;
    }
  }

  // ---- the archive as the program runs it ----

  class WebhookArchive {
    var rows: map<EventId, Row>
    /** What each delivery that is still open saw when it archived its event. */
    var open: set<Sighting>

    function Snapshot(): Archive
      reads this
    {
      Archive(rows, open)
    }

    constructor ()
      ensures Snapshot() == EMPTY_ARCHIVE
    {
      rows, open := map[], {};
    }

    /** One write of any delivery or pass. */
    method Commit(step: Step)
      modifies this
      ensures Snapshot() == Apply(old(Snapshot()), step)
    {
      match step {
        case Upsert(id, kind, now) =>
          var row := Archived(Lookup(rows, id), kind, now);
          rows := rows[id := row];
          open := open + {Sighting(id, row)};
        case Settle(id, saw, handled, now) =>
          if Sighting(id, saw) in open && id in rows && IsDecision(handled) {
            rows := rows[id := Settled(rows[id], saw, handled, now)];
            open := open - {Sighting(id, saw)};
          }
        case Lose(id, saw) =>
          open := open - {Sighting(id, saw)};
      }
    }

    method CommitAll(steps: seq<Step>)
      modifies this
      ensures Snapshot() == Run(old(Snapshot()), steps)
    {
      ghost var before := Snapshot();
      for k := 0 to |steps|
        invariant Snapshot() == Run(before, steps[..k])
      {
        assert steps[..k + 1][..k] == steps[..k];
        Commit(steps[k]);
      }
      assert steps[..|steps|] == steps;
    }

    /**
     * Archives the event, runs its handler, and settles the row with what the upsert had returned, whatever others have
     * written to the table meanwhile. The answer is this delivery's own.
     */
    method HandleStripeWebhookEvent(
      id: EventId, kind: string, handled: Handled, archiveUp: bool, now: int, meanwhile: seq<Step>)
      returns (answer: Attempted<Status>)
      requires IsDecision(handled) && LeaveOpen(meanwhile, Sighting(id, Archived(Lookup(rows, id), kind, now)))
      modifies this
      ensures Snapshot() == Run(old(Snapshot()), DeliverySteps(old(rows), id, kind, handled, archiveUp, now, meanwhile))
      ensures answer == Answer(Lookup(old(rows), id), kind, handled, archiveUp)
    {
      ghost var before := Snapshot();
      var archived := Archived(Lookup(rows, id), kind, now);
      rows := rows[id := archived];
      open := open + {Sighting(id, archived)};
      ghost var upsert := Upsert(id, kind, now);
      ghost var last := if archiveUp then Settle(id, archived, handled, now) else Lose(id, archived);
      RunOneMore(before, [], upsert);
      assert [] + [upsert] == [upsert];
      StaysOpen(Snapshot(), meanwhile, Sighting(id, archived));
      CommitAll(meanwhile);
      RunConcat(before, [upsert], meanwhile);
      assert Snapshot() == Run(before, [upsert] + meanwhile);
      RunOneMore(before, [upsert] + meanwhile, last);
      hide Run;
      open := open - {Sighting(id, archived)};
      if !archiveUp {
        return if handled.Threw? then Raised(handled.message) else Raised("archive unavailable");
      }
      if handled.Threw? {
        var row := rows[id].(status := SettleStatus(archived.status, Failed), lastError := Some(handled.message));
        if archived.firstError.None? {
          row := row.(firstError := Some(handled.message));
        }
        rows := rows[id := row];
        return Raised(handled.message);
      }
      var status := SettleStatus(archived.status, handled.status);
      var parked := status != handled.status;
      var settled := rows[id].(status := status);
      if !parked {
        settled := settled.(lastError := None, processedAt := Some(now));
      }
      rows := rows[id := settled];
      answer := Value(status);
    }

    /** One row of a pass: a malformed payload or a failed delivery is counted, never raised. */
    method ReprocessRow(w: Work, report: Report) returns (r: Report)
      requires IsDecision(w.handled) && LeaveOpen(w.meanwhile, SightingOf(rows, w))
      modifies this
      ensures Snapshot() == Run(old(Snapshot()), WorkSteps(old(rows), w))
      ensures r == Counted(report, w.intact, FateOf(Lookup(old(rows), w.id), w))
    {
      hide Run;
      r := report;
      if !w.intact {
        RunNothing(Snapshot());
        r := r.(failed := r.failed + 1);
        return;
      }
      r := r.(reprocessed := r.reprocessed + 1);
      var answer := HandleStripeWebhookEvent(w.id, KindOf(rows, w.id), w.handled, w.archiveUp, w.now, w.meanwhile);
      if answer.Raised? {
        r := r.(failed := r.failed + 1);
      } else if answer.value == Processed {
        r := r.(processed := r.processed + 1);
      } else if answer.value == NeedsAdmin {
        r := r.(needsAdmin := r.needsAdmin + 1);
      } else {
        r := r.(stillIgnored := r.stillIgnored + 1);
      }
    }

    /**
     * Re-dispatches the selected rows, one by one, among live deliveries. A failure never stops the pass: every selected
     * row is counted under exactly the one outcome it met, and the table moved by exactly the writes of the pass and of
     * the others.
     */
    method ReprocessIgnoredStripeEvents(kinds: set<string>, limit: nat, batch: seq<Work>) returns (report: Report)
      requires OldestIgnored(rows, kinds, limit, Ids(batch))
      requires forall n: nat | n < |batch| ::
                 IsDecision(batch[n].handled)
                 && LeaveOpen(batch[n].meanwhile, SightingOf(Reached(Snapshot(), batch, n).rows, batch[n]))
      modifies this
      ensures Snapshot() == Run(old(Snapshot()), PassSteps(old(Snapshot()), batch, |batch|))
      ensures Tallies(report, old(Snapshot()), batch, |batch|)
    {
      hide OldestIgnored, Run, WorkSteps, FateOf, Counted, LeaveOpen, SightingOf;
      report := Report(0, 0, 0, 0, 0);
      ghost var was := Snapshot();
      RunNothing(was);
      for n := 0 to |batch|
        invariant Snapshot() == Run(was, PassSteps(was, batch, n))
        invariant Tallies(report, was, batch, n)
      {
        var w := batch[n];
        ghost var sofar := PassSteps(was, batch, n);
        OneMoreRow(report, was, batch, n);
        hide Tallies;
        RunConcat(was, sofar, w.before);
        CommitAll(w.before);
        RunConcat(was, sofar + w.before, WorkSteps(rows, w));
        report := ReprocessRow(w, report);
      }
    }
  }
}
