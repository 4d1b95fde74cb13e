/**
 * The agent-join queue on a Redis stream: at-least-once delivery with claims, stale reclaims, bounded retries and a
 * dead-letter list, under worker crashes between any two Redis commands.
 */
module JoinQueue {
  import opened Sums

  type SessionId = int
  type CandidateId = int
  type Worker = int
  type TaskId = int

  /** A stream entry or dead letter; session is absent when the payload names none. parent is the entry it was made from. */
  datatype Payload = Payload(session: Option<SessionId>, candidate: Option<CandidateId>, attempts: int, parent: Option<nat>)

  /**
   * The stream and its consumer group. Entries are numbered in order; the first `delivered` of them were read, and a
   * read entry is pending on a worker until it is acknowledged. finished holds the entries that were acknowledged
   * because the interview completed or was already terminal; Redis itself does not keep that history.
   */
  datatype Redis = Redis(
    stream: seq<Payload>,
    delivered: nat,
    pending: map<nat, Worker>,
    dead: seq<Payload>,
    finished: set<nat>)

  /** An entry handed out to a worker. */
  datatype Job = Job(message: nat, payload: Payload)

  /** Where a worker task stands with the entry it claimed. */
  datatype Phase = Working | Discarding | Copied | Succeeded

  datatype Task = Task(worker: Worker, job: Job, phase: Phase)

  datatype System = System(redis: Redis, tasks: map<TaskId, Task>)

  // ---- Redis commands ----

  function XAdd(r: Redis, p: Payload): Redis {
    r.(stream := r.stream + [p])
  }

  function XAddDead(r: Redis, p: Payload): Redis {
    r.(dead := r.dead + [p])
  }

  function XAck(r: Redis, m: nat): Redis {
    r.(pending := r.pending - {m})
  }

  /** XREADGROUP with ">": the next entry nobody has read becomes pending on the worker. */
  function ReadNew(r: Redis, w: Worker): Redis
    requires r.delivered < |r.stream|
  {
    r.(delivered := r.delivered + 1, pending := r.pending[r.delivered := w])
  }

  /** XAUTOCLAIM: a pending entry, idle long enough, moves to the worker. */
  function Reclaim(r: Redis, m: nat, w: Worker): Redis
    requires m in r.pending
  {
    r.(pending := r.pending[m := w])
  }

  /** Unread, or read and not acknowledged. */
  predicate Live(r: Redis, m: nat) {
    m < |r.stream| && (r.delivered <= m || m in r.pending)
  }

  /** What a retry writes: the same job, one attempt later. */
  function RetryCopy(job: Job): Payload {
    Payload(job.payload.session, job.payload.candidate, job.payload.attempts + 1, Some(job.message))
  }

  /** The first command of a retry: the copy is written, to the stream or, at the last attempt, to the dead-letter list. */
  function WriteCopy(r: Redis, job: Job, maxAttempts: int): Redis {
    var copy := RetryCopy(job);
    if copy.attempts >= maxAttempts then XAddDead(r, copy) else XAdd(r, copy)
  }

  /** The copy and then the acknowledgement. */
  function Retried(r: Redis, job: Job, maxAttempts: int): Redis {
    XAck(WriteCopy(r, job, maxAttempts), job.message)
  }

  /** The acknowledgement of an entry whose interview completed or was already over. */
  function Finished(r: Redis, job: Job): Redis {
    XAck(r.(finished := r.finished + {job.message}), job.message)
  }

  /** The dead letter of an entry without a session: it names the entry. */
  function Unreadable(m: nat): Payload {
    Payload(None, None, 0, Some(m))
  }

  // ---- one step of the system ----

  datatype Step =
    | Enqueue(session: Option<SessionId>, candidate: Option<CandidateId>)
    | Read(worker: Worker, task: TaskId)
    | Claim(message: nat, worker: Worker, task: TaskId)
    | Succeed(task: TaskId)
    | Fail(task: TaskId)
    | Acknowledge(task: TaskId)
    | Defer(task: TaskId)
    | Crash(tasks: set<TaskId>)

  /** A task for the entry it was handed: a payload without a session goes to the dead-letter list first. */
  function TakeUp(s: System, task: TaskId, worker: Worker, m: nat): System
    requires m < |s.redis.stream|
  {
    var p := s.redis.stream[m];
    if p.session.None? then
      System(XAddDead(s.redis, Unreadable(m)), s.tasks[task := Task(worker, Job(m, p), Discarding)])
    else
      s.(tasks := s.tasks[task := Task(worker, Job(m, p), Working)])
  }

  function Apply(s: System, step: Step, maxAttempts: int): System {
    match step
    case Enqueue(session, candidate) => s.(redis := XAdd(s.redis, Payload(session, candidate, 0, None)))
    case Read(worker, task) =>
      if s.redis.delivered < |s.redis.stream| && task !in s.tasks then
        TakeUp(s.(redis := ReadNew(s.redis, worker)), task, worker, s.redis.delivered)
      else s
    case Claim(m, worker, task) =>
      if m in s.redis.pending && m < |s.redis.stream| && task !in s.tasks then
        TakeUp(s.(redis := Reclaim(s.redis, m, worker)), task, worker, m)
      else s
    case Succeed(task) =>
      if task in s.tasks && s.tasks[task].phase == Working then
        s.(tasks := s.tasks[task := s.tasks[task].(phase := Succeeded)])
      else s
    case Fail(task) =>
      if task in s.tasks && (s.tasks[task].phase == Working || s.tasks[task].phase == Succeeded) then
        System(WriteCopy(s.redis, s.tasks[task].job, maxAttempts), s.tasks[task := s.tasks[task].(phase := Copied)])
      else s
    case Acknowledge(task) =>
      if task in s.tasks && s.tasks[task].phase != Working then
        var t := s.tasks[task];
        System(if t.phase == Succeeded then Finished(s.redis, t.job) else XAck(s.redis, t.job.message), s.tasks - {task})
      else s
    case Defer(task) =>
      if task in s.tasks && s.tasks[task].phase == Working then s.(tasks := s.tasks - {task}) else s
    case Crash(tasks) => s.(tasks := s.tasks - tasks)
  }

  function Run(s: System, steps: seq<Step>, maxAttempts: int): System {
    if steps == [] then s else Apply(Run(s, steps[..|steps| - 1], maxAttempts), steps[|steps| - 1], maxAttempts)
  }

  const EMPTY := System(Redis([], 0, map[], [], {}), map[])

  // ---- the invariant ----

  /** Something was made from the entry: a later entry copies it, or a dead letter names it. */
  ghost predicate HasCopy(r: Redis, m: nat) {
    || (exists k: nat :: m < k < |r.stream| && r.stream[k].parent == Some(m))
    || (exists p :: p in r.dead && p.parent == Some(m))
  }

  /** The entry itself is unacknowledged, was acknowledged as finished, or something was made from it. */
  ghost predicate Covered(r: Redis, m: nat) {
    Live(r, m) || m in r.finished || HasCopy(r, m)
  }

  /** Retries count up from their parent and stay below the limit. */
  ghost predicate EntryOk(r: Redis, m: nat, maxAttempts: int)
    requires m < |r.stream|
  {
    var p := r.stream[m];
    && 0 <= p.attempts && (p.attempts > 0 ==> p.attempts < maxAttempts)
    && (p.parent.None? <==> p.attempts == 0)
    && (p.parent.Some? ==>
          p.parent.value < m && r.stream[p.parent.value].session == p.session
          && r.stream[p.parent.value].candidate == p.candidate
          && r.stream[p.parent.value].attempts + 1 == p.attempts)
  }

  /** A task works on a delivered entry; past its first command, the entry has its copy or dead letter. */
  ghost predicate TaskOk(r: Redis, t: Task) {
    && t.job.message < r.delivered && t.job.message < |r.stream| && r.stream[t.job.message] == t.job.payload
    && (t.phase == Discarding <==> t.job.payload.session.None?)
    && (t.phase == Copied || t.phase == Discarding ==> HasCopy(r, t.job.message))
  }

  ghost predicate AllCovered(r: Redis) {
    forall m: nat | m < |r.stream| :: Covered(r, m)
  }

  /** A dead letter names an entry of its own session; one of a session has used up every attempt. */
  ghost predicate DeadOk(r: Redis, maxAttempts: int) {
    forall p | p in r.dead ::
      && p.parent.Some? && p.parent.value < |r.stream| && r.stream[p.parent.value].session == p.session
      && (p.session.Some? ==> UsedUp(p, r.stream[p.parent.value], maxAttempts))
  }

  predicate UsedUp(letter: Payload, entry: Payload, maxAttempts: int) {
    letter.attempts >= maxAttempts && letter.attempts == entry.attempts + 1 && letter.candidate == entry.candidate
  }

  ghost predicate Entries(r: Redis, maxAttempts: int) {
    && r.delivered <= |r.stream|
    && (forall m | m in r.pending :: m < r.delivered)
    && (forall m: nat | m < |r.stream| :: EntryOk(r, m, maxAttempts))
    && DeadOk(r, maxAttempts)
  }

  ghost predicate Tasks(s: System) {
    forall task | task in s.tasks :: TaskOk(s.redis, s.tasks[task])
  }

  ghost predicate Inv(s: System, maxAttempts: int) {
    Entries(s.redis, maxAttempts) && AllCovered(s.redis) && Tasks(s)
  }

  // ---- commands that only add keep every cover ----

  /** b has everything a has: later entries, more dead letters, more finished entries, and no live entry less. */
  ghost predicate Grown(a: Redis, b: Redis) {
    && a.stream <= b.stream && a.delivered <= b.delivered
    && (forall p | p in a.dead :: p in b.dead) && a.finished <= b.finished
    && (forall m: nat | Live(a, m) :: Live(b, m))
  }

  lemma GrownKeepsCopy(a: Redis, b: Redis, m: nat)
    requires Grown(a, b) && HasCopy(a, m)
    ensures HasCopy(b, m)
  {
    if k: nat :| m < k < |a.stream| && a.stream[k].parent == Some(m) {
      assert b.stream[k].parent == Some(m);
    } else {
      var p :| p in a.dead && p.parent == Some(m);
      assert p in b.dead;
    }
  }

  lemma GrownKeepsTasks(s: System, b: Redis)
    requires Tasks(s) && Grown(s.redis, b)
    ensures Tasks(System(b, s.tasks))
  {
    hide HasCopy;
    forall task | task in s.tasks ensures TaskOk(b, s.tasks[task]) {
      var t := s.tasks[task];
      assert TaskOk(s.redis, t);
      if t.phase == Copied || t.phase == Discarding {
        GrownKeepsCopy(s.redis, b, t.job.message);
      }
    }
  }

  lemma GrownKeepsCover(a: Redis, b: Redis)
    requires AllCovered(a) && Grown(a, b)
    requires forall m: nat | |a.stream| <= m < |b.stream| :: Live(b, m)
    ensures AllCovered(b)
  {
    hide HasCopy;
    forall m: nat | m < |b.stream| ensures Covered(b, m) {
      if m < |a.stream| {
        assert Covered(a, m);
        if HasCopy(a, m) {
          GrownKeepsCopy(a, b, m);
        }
      }
    }
  }

  // ---- each step ----

  lemma AddKeepsInv(s: System, p: Payload, maxAttempts: int)
    requires Inv(s, maxAttempts)
    requires EntryOk(XAdd(s.redis, p), |s.redis.stream|, maxAttempts)
    ensures Inv(s.(redis := XAdd(s.redis, p)), maxAttempts)
  {
    var b := XAdd(s.redis, p);
    assert Grown(s.redis, b);
    GrownKeepsTasks(s, b);
    GrownKeepsCover(s.redis, b);
    hide Covered, Live, Grown;
    forall m: nat | m < |b.stream| ensures EntryOk(b, m, maxAttempts) {
      if m < |s.redis.stream| {
        assert EntryOk(s.redis, m, maxAttempts);
      }
    }
  }

  lemma AddDeadKeepsInv(s: System, p: Payload, maxAttempts: int)
    requires Inv(s, maxAttempts)
    requires p.parent.Some? && p.parent.value < |s.redis.stream| && s.redis.stream[p.parent.value].session == p.session
    requires p.session.Some? ==> UsedUp(p, s.redis.stream[p.parent.value], maxAttempts)
    ensures Inv(s.(redis := XAddDead(s.redis, p)), maxAttempts)
  {
    var b := XAddDead(s.redis, p);
    assert Grown(s.redis, b);
    GrownKeepsTasks(s, b);
    GrownKeepsCover(s.redis, b);
    hide Covered, Live, Grown;
    forall m: nat | m < |b.stream| ensures EntryOk(b, m, maxAttempts) {
      assert EntryOk(s.redis, m, maxAttempts);
    }
  }

  lemma DeliverKeepsInv(s: System, b: Redis, maxAttempts: int)
    requires Inv(s, maxAttempts)
    requires (s.redis.delivered < |s.redis.stream| && exists w :: b == ReadNew(s.redis, w))
             || (exists m, w :: m in s.redis.pending && b == Reclaim(s.redis, m, w))
    ensures Inv(s.(redis := b), maxAttempts)
  {
    assert Grown(s.redis, b);
    GrownKeepsTasks(s, b);
    GrownKeepsCover(s.redis, b);
    hide Covered, Live, Grown;
    forall m: nat | m < |b.stream| ensures EntryOk(b, m, maxAttempts) {
      assert EntryOk(s.redis, m, maxAttempts);
    }
  }

  lemma UnreadableCovers(r: Redis, m: nat)
    ensures HasCopy(XAddDead(r, Unreadable(m)), m)
  {
    var b := XAddDead(r, Unreadable(m));
    assert b.dead[|r.dead|] == Unreadable(m) && Unreadable(m) in b.dead;
  }

  lemma TakeUpKeepsInv(s: System, task: TaskId, worker: Worker, m: nat, maxAttempts: int)
    requires Inv(s, maxAttempts) && m < s.redis.delivered && m < |s.redis.stream| && task !in s.tasks
    ensures Inv(TakeUp(s, task, worker, m), maxAttempts)
  {
    if s.redis.stream[m].session.None? {
      AddDeadKeepsInv(s, Unreadable(m), maxAttempts);
      UnreadableCovers(s.redis, m);
    }
    hide Covered, HasCopy, Entries, AllCovered;
  }

  /** Writing the copy covers the entry it copies, on the stream or as a dead letter. */
  lemma CopyCovers(r: Redis, job: Job, maxAttempts: int)
    requires job.message < |r.stream|
    ensures HasCopy(WriteCopy(r, job, maxAttempts), job.message)
  {
    var b := WriteCopy(r, job, maxAttempts);
    if job.payload.attempts + 1 >= maxAttempts {
      assert RetryCopy(job) == b.dead[|r.dead|] && RetryCopy(job) in b.dead;
    } else {
      assert b.stream[|r.stream|] == RetryCopy(job);
    }
  }

  lemma FailKeepsInv(s: System, task: TaskId, maxAttempts: int)
    requires Inv(s, maxAttempts) && task in s.tasks
    requires s.tasks[task].phase == Working || s.tasks[task].phase == Succeeded
    ensures Inv(Apply(s, Fail(task), maxAttempts), maxAttempts)
  {
    var t := s.tasks[task];
    assert TaskOk(s.redis, t);
    CopyCovers(s.redis, t.job, maxAttempts);
    if t.job.payload.attempts + 1 >= maxAttempts {
      AddDeadKeepsInv(s, RetryCopy(t.job), maxAttempts);
    } else {
      assert EntryOk(s.redis, t.job.message, maxAttempts);
      AddKeepsInv(s, RetryCopy(t.job), maxAttempts);
    }
    var copied := s.(redis := WriteCopy(s.redis, t.job, maxAttempts));
    assert Inv(copied, maxAttempts);
    hide Covered, HasCopy, Entries, AllCovered;
    assert TaskOk(copied.redis, t);
  }

  /** An acknowledgement that is safe: the entry is finished, or something was made from it. */
  ghost predicate SafeToAck(r: Redis, m: nat) {
    m in r.finished || HasCopy(r, m)
  }

  /** An acknowledgement uncovers at most its own entry, and a safe one not even that. */
  lemma AckKeepsCover(r: Redis, m: nat, k: nat)
    requires Covered(r, k) && (k == m ==> SafeToAck(r, m))
    ensures Covered(XAck(r, m), k)
  {
    if HasCopy(r, k) {
      AckKeepsCopy(r, m, k);
    }
    hide HasCopy;
  }

  lemma AckKeepsCopy(r: Redis, m: nat, k: nat)
    requires HasCopy(r, k)
    ensures HasCopy(XAck(r, m), k)
  {
    if j: nat :| k < j < |r.stream| && r.stream[j].parent == Some(k) {
      assert XAck(r, m).stream[j].parent == Some(k);
    } else {
      var p :| p in r.dead && p.parent == Some(k);
      assert p in XAck(r, m).dead;
    }
  }

  lemma AckKeepsInv(s: System, m: nat, maxAttempts: int)
    requires Inv(s, maxAttempts) && SafeToAck(s.redis, m)
    ensures Inv(s.(redis := XAck(s.redis, m)), maxAttempts)
  {
    var r, b := s.redis, XAck(s.redis, m);
    hide Covered, HasCopy, Live, SafeToAck;
    forall k: nat | k < |b.stream| ensures Covered(b, k) {
      AckKeepsCover(r, m, k);
    }
    forall k: nat | k < |b.stream| ensures EntryOk(b, k, maxAttempts) {
      assert EntryOk(r, k, maxAttempts);
    }
    forall task | task in s.tasks ensures TaskOk(b, s.tasks[task]) {
      var t := s.tasks[task];
      assert TaskOk(r, t);
      if t.phase == Copied || t.phase == Discarding {
        AckKeepsCopy(r, m, t.job.message);
      }
    }
  }

  lemma FinishKeepsInv(s: System, m: nat, maxAttempts: int)
    requires Inv(s, maxAttempts)
    ensures Inv(s.(redis := s.redis.(finished := s.redis.finished + {m})), maxAttempts)
  {
    var b := s.redis.(finished := s.redis.finished + {m});
    assert Grown(s.redis, b);
    GrownKeepsTasks(s, b);
    GrownKeepsCover(s.redis, b);
    hide Covered, Live, Grown;
    forall k: nat | k < |b.stream| ensures EntryOk(b, k, maxAttempts) {
      assert EntryOk(s.redis, k, maxAttempts);
    }
  }

  lemma DropTasksKeepsInv(s: System, tasks: set<TaskId>, maxAttempts: int)
    requires Inv(s, maxAttempts)
    ensures Inv(s.(tasks := s.tasks - tasks), maxAttempts)
  {
    hide Entries, AllCovered, TaskOk;
  }

  lemma AcknowledgeKeepsInv(s: System, task: TaskId, maxAttempts: int)
    requires Inv(s, maxAttempts) && task in s.tasks && s.tasks[task].phase != Working
    ensures Inv(Apply(s, Acknowledge(task), maxAttempts), maxAttempts)
  {
    hide HasCopy, Entries, AllCovered;
    var t := s.tasks[task];
    assert TaskOk(s.redis, t);
    var settled := s;
    if t.phase == Succeeded {
      FinishKeepsInv(s, t.job.message, maxAttempts);
      settled := s.(redis := s.redis.(finished := s.redis.finished + {t.job.message}));
    }
    AckKeepsInv(settled, t.job.message, maxAttempts);
    DropTasksKeepsInv(settled.(redis := XAck(settled.redis, t.job.message)), {task}, maxAttempts);
  }

  lemma ApplyKeepsInv(s: System, step: Step, maxAttempts: int)
    requires Inv(s, maxAttempts)
    ensures Inv(Apply(s, step, maxAttempts), maxAttempts)
  {
    hide AllCovered, TaskOk, Covered, WriteCopy, EntryOk, DeadOk;
    match step
    case Enqueue(session, candidate) =>
      FirstEntryOk(s.redis, session, candidate, maxAttempts);
      AddKeepsInv(s, Payload(session, candidate, 0, None), maxAttempts);
    case Read(worker, task) =>
      if s.redis.delivered < |s.redis.stream| && task !in s.tasks {
        DeliverKeepsInv(s, ReadNew(s.redis, worker), maxAttempts);
        TakeUpKeepsInv(s.(redis := ReadNew(s.redis, worker)), task, worker, s.redis.delivered, maxAttempts);
      }
    case Claim(m, worker, task) =>
      if m in s.redis.pending && m < |s.redis.stream| && task !in s.tasks {
        DeliverKeepsInv(s, Reclaim(s.redis, m, worker), maxAttempts);
        TakeUpKeepsInv(s.(redis := Reclaim(s.redis, m, worker)), task, worker, m, maxAttempts);
      }
    case Succeed(task) =>
      if task in s.tasks && s.tasks[task].phase == Working {
        SucceedKeepsTask(s.redis, s.tasks[task]);
      }
    case Fail(task) =>
      if task in s.tasks && (s.tasks[task].phase == Working || s.tasks[task].phase == Succeeded) {
        FailKeepsInv(s, task, maxAttempts);
      }
    case Acknowledge(task) =>
      if task in s.tasks && s.tasks[task].phase != Working {
        AcknowledgeKeepsInv(s, task, maxAttempts);
      }
    case Defer(task) => DropTasksKeepsInv(s, {task}, maxAttempts);
    case Crash(tasks) => DropTasksKeepsInv(s, tasks, maxAttempts);
  }

  lemma FirstEntryOk(r: Redis, session: Option<SessionId>, candidate: Option<CandidateId>, maxAttempts: int)
    ensures EntryOk(XAdd(r, Payload(session, candidate, 0, None)), |r.stream|, maxAttempts)
  {
  }

  lemma SucceedKeepsTask(r: Redis, t: Task)
    requires TaskOk(r, t) && t.phase == Working
    ensures TaskOk(r, t.(phase := Succeeded))
  {
  }

  lemma {:induction false} RunKeepsInv(s: System, steps: seq<Step>, maxAttempts: int)
    requires Inv(s, maxAttempts)
    ensures Inv(Run(s, steps, maxAttempts), maxAttempts)
  {
    hide Inv, Apply;
    if steps != [] {
      RunKeepsInv(s, steps[..|steps| - 1], maxAttempts);
      ApplyKeepsInv(Run(s, steps[..|steps| - 1], maxAttempts), steps[|steps| - 1], maxAttempts);
    }
  }

  /** k is m, or a copy of it, or a copy of a copy, and so on. */
  ghost predicate Descends(r: Redis, m: nat, k: nat)
    requires k < |r.stream|
    decreases k
  {
    k == m || (r.stream[k].parent.Some? && r.stream[k].parent.value < k && Descends(r, m, r.stream[k].parent.value))
  }

  /** Where the chain of an entry ends: unacknowledged, acknowledged as finished, or as a dead letter. */
  ghost predicate Ends(r: Redis, k: nat) {
    Live(r, k) || k in r.finished || exists p :: p in r.dead && p.parent == Some(k)
  }

  lemma DescendsFurther(r: Redis, m: nat, c: nat, k: nat)
    requires m < c <= k < |r.stream| && r.stream[c].parent == Some(m) && Descends(r, c, k)
    ensures Descends(r, m, k)
    decreases k
  {
    if k != c {
      DescendsOnlyUp(r, c, r.stream[k].parent.value);
      DescendsFurther(r, m, c, r.stream[k].parent.value);
    }
  }

  lemma {:induction false} DescendsOnlyUp(r: Redis, m: nat, k: nat)
    requires k < |r.stream| && Descends(r, m, k)
    ensures m <= k
    decreases k
  {
    if k != m {
      DescendsOnlyUp(r, m, r.stream[k].parent.value);
    }
  }

  /** Every chain of copies has an end, and it is the same session's job all the way. */
  lemma {:induction false} ChainEnds(r: Redis, m: nat, maxAttempts: int) returns (k: nat)
    requires Entries(r, maxAttempts) && AllCovered(r) && m < |r.stream|
    ensures m <= k < |r.stream| && Descends(r, m, k) && Ends(r, k) && r.stream[k].session == r.stream[m].session
    decreases |r.stream| - m
  {
    assert Covered(r, m);
    if Live(r, m) || m in r.finished || exists p :: p in r.dead && p.parent == Some(m) {
      k := m;
    } else {
      var c: nat :| m < c < |r.stream| && r.stream[c].parent == Some(m);
      assert EntryOk(r, c, maxAttempts);
      k := ChainEnds(r, c, maxAttempts);
      DescendsFurther(r, m, c, k);
    }
  }

  /**
   * No job is lost: after any run, crashes included, every single entry ever put on the stream is unacknowledged, was
   * acknowledged as finished, or lives on in a copy or a dead letter of its own; and following the copies of the same
   * job one arrives at an unacknowledged entry, a finished one, or a dead letter.
   */
  lemma NoJobIsLost(steps: seq<Step>, maxAttempts: int, m: nat)
    requires m < |Run(EMPTY, steps, maxAttempts).redis.stream|
    ensures var r := Run(EMPTY, steps, maxAttempts).redis;
            && Covered(r, m)
            && exists k: nat :: k < |r.stream| && Descends(r, m, k) && Ends(r, k)
                                && r.stream[k].session == r.stream[m].session
  {
    assert Inv(EMPTY, maxAttempts);
    RunKeepsInv(EMPTY, steps, maxAttempts);
    hide Run, Live, Entries, Covered, Ends;
    var r := Run(EMPTY, steps, maxAttempts).redis;
    var k := ChainEnds(r, m, maxAttempts);
  }

  /** The number of retries between an entry and the enqueue it descends from. */
  ghost function Depth(r: Redis, m: nat): nat
    requires m < |r.stream|
    decreases m
  {
    var p := r.stream[m].parent;
    if p.Some? && p.value < m then 1 + Depth(r, p.value) else 0
  }

  lemma {:induction false} DepthIsAttempts(r: Redis, m: nat, maxAttempts: int)
    requires Entries(r, maxAttempts) && m < |r.stream|
    ensures Depth(r, m) == r.stream[m].attempts
    decreases m
  {
    assert EntryOk(r, m, maxAttempts);
    if r.stream[m].parent.Some? {
      DepthIsAttempts(r, r.stream[m].parent.value, maxAttempts);
    }
  }

  /**
   * Every failure chain is bounded: an entry's attempts are its distance from an enqueue, and a copy is only ever queued
   * below the limit.
   */
  lemma RetriesAreBounded(steps: seq<Step>, maxAttempts: int, m: nat)
    requires m < |Run(EMPTY, steps, maxAttempts).redis.stream|
    ensures var r := Run(EMPTY, steps, maxAttempts).redis;
            && Depth(r, m) == r.stream[m].attempts
            && (maxAttempts >= 1 || r.stream[m].parent.Some? ==> Depth(r, m) < maxAttempts)
  {
    assert Inv(EMPTY, maxAttempts);
    RunKeepsInv(EMPTY, steps, maxAttempts);
    hide Run, AllCovered, Tasks, Depth;
    var r := Run(EMPTY, steps, maxAttempts).redis;
    DepthIsAttempts(r, m, maxAttempts);
    assert EntryOk(r, m, maxAttempts);
  }

  /** In every reachable state a dead letter of a session is the copy of an entry that had failed once too often. */
  lemma DeadLettersUsedUp(steps: seq<Step>, maxAttempts: int, p: Payload)
    requires p in Run(EMPTY, steps, maxAttempts).redis.dead
    ensures var r := Run(EMPTY, steps, maxAttempts).redis;
            && p.parent.Some? && p.parent.value < |r.stream|
            && r.stream[p.parent.value].session == p.session
            && (p.session.Some? ==>
                  && p.attempts >= maxAttempts && p.attempts == Depth(r, p.parent.value) + 1
                  && p.candidate == r.stream[p.parent.value].candidate)
  {
    assert Inv(EMPTY, maxAttempts);
    RunKeepsInv(EMPTY, steps, maxAttempts);
    hide Run, AllCovered, Tasks, Depth;
    var r := Run(EMPTY, steps, maxAttempts).redis;
    DepthIsAttempts(r, p.parent.value, maxAttempts);
  }

  // ---- leases ----

  /** What a heartbeat asks before it renews: the entry is pending on this worker. */
  predicate Leased(r: Redis, m: nat, w: Worker) {
    m in r.pending && r.pending[m] == w
  }

  /** The step hands entry m to a worker other than w, or acknowledges it. */
  predicate Takes(s: System, step: Step, m: nat, w: Worker) {
    match step
    case Claim(k, worker, task) => k == m && worker != w
    case Acknowledge(task) => task in s.tasks && s.tasks[task].job.message == m
    case _ => false
  }

  lemma StepKeepsLease(s: System, step: Step, m: nat, w: Worker, maxAttempts: int)
    requires m < s.redis.delivered && Leased(s.redis, m, w) && !Takes(s, step, m, w)
    ensures var end := Apply(s, step, maxAttempts).redis;
            m < end.delivered && Leased(end, m, w)
  {
  }

  /** A renewal is refused only after the entry was reclaimed for another worker or acknowledged. */
  lemma {:induction false} RefusedLeaseWasTaken(s: System, steps: seq<Step>, m: nat, w: Worker, maxAttempts: int)
    requires m < s.redis.delivered && Leased(s.redis, m, w)
    ensures m < Run(s, steps, maxAttempts).redis.delivered
    ensures Leased(Run(s, steps, maxAttempts).redis, m, w)
            || exists k :: 0 <= k < |steps| && Takes(Run(s, steps[..k], maxAttempts), steps[k], m, w)
  {
    hide Apply, Takes, Leased;
    if steps != [] {
      var n := |steps| - 1;
      var before := Run(s, steps[..n], maxAttempts);
      RefusedLeaseWasTaken(s, steps[..n], m, w, maxAttempts);
      DeliveredStays(before, steps[n], maxAttempts);
      if Leased(before.redis, m, w) {
        if !Takes(before, steps[n], m, w) {
          StepKeepsLease(before, steps[n], m, w, maxAttempts);
        }
      } else {
        var k :| 0 <= k < n && Takes(Run(s, steps[..n][..k], maxAttempts), steps[..n][k], m, w);
        assert steps[..n][..k] == steps[..k];
        assert Takes(Run(s, steps[..k], maxAttempts), steps[k], m, w);
      }
    }
  }

  lemma DeliveredStays(s: System, step: Step, maxAttempts: int)
    ensures s.redis.delivered <= Apply(s, step, maxAttempts).redis.delivered
  {
  }

  /** An acknowledged entry is gone for good: no run makes it pending again, so it is never reclaimed nor renewed. */
  lemma {:induction false} AcknowledgedForGood(s: System, steps: seq<Step>, m: nat, w: Worker, maxAttempts: int)
    requires m < s.redis.delivered && m !in s.redis.pending
    ensures var end := Run(s, steps, maxAttempts).redis;
            m < end.delivered && m !in end.pending && !Leased(end, m, w)
  {
    if steps != [] {
      AcknowledgedForGood(s, steps[..|steps| - 1], m, w, maxAttempts);
    }
  }

  // ---- the worker's queue client ----

  /** What the work task ended with, or the lease task before it. */
  datatype WorkOutcome = WorkCompleted | SessionTerminal | MediaNotReady | WorkFailed | LeaseLost

  /** Hands out the entry, or dead-letters and acknowledges it when it names no session. */
  function HandOut(r: Redis, m: nat): (Redis, Option<Job>)
    requires m < |r.stream|
  {
    var p := r.stream[m];
    if p.session.None? then (XAck(XAddDead(r, Unreadable(m)), m), None) else (r, Some(Job(m, p)))
  }

  function NextUnread(r: Redis, w: Worker): (Redis, Option<Job>) {
    if r.delivered >= |r.stream| then (r, None) else HandOut(ReadNew(r, w), r.delivered)
  }

  /** A stale pending entry goes before every unread one; a malformed stale entry falls through to the unread ones. */
  function Next(r: Redis, w: Worker, idle: Option<nat>): (Redis, Option<Job>)
    requires idle.Some? ==> idle.value in r.pending && idle.value < |r.stream|
  {
    if idle.None? then NextUnread(r, w)
    else
      var (claimed, job) := HandOut(Reclaim(r, idle.value, w), idle.value);
      if job.Some? then (claimed, job) else NextUnread(claimed, w)
  }

  /** The queue after one job, by how its work ended. An acknowledgement that raises counts as a failure. */
  function Settled(r: Redis, job: Job, outcome: WorkOutcome, ackRaises: bool, maxAttempts: int): Redis {
    match outcome
    case MediaNotReady => r
    case LeaseLost => r
    case WorkFailed => Retried(r, job, maxAttempts)
    case _ => if ackRaises then Retried(r, job, maxAttempts) else Finished(r, job)
  }

  // ---- what a call means for the jobs ----

  /** Nothing happened to the queue but that entry m is no longer pending. */
  ghost predicate OnlyAcknowledged(a: Redis, b: Redis, m: nat) {
    && b.stream == a.stream && b.delivered == a.delivered && b.dead == a.dead
    && m !in b.pending && forall k | k != m :: k in a.pending <==> k in b.pending
  }

  /**
   * A failed job is queued again, unread, one attempt later, while attempts are left; then, and only then, it becomes a
   * dead letter instead. Either way its own entry is acknowledged.
   */
  lemma FailedJobIsQueuedAgain(r: Redis, job: Job, maxAttempts: int)
    requires r.delivered <= |r.stream|
    ensures var b := Retried(r, job, maxAttempts);
            && job.message !in b.pending && b.delivered == r.delivered && b.finished == r.finished
            && (job.payload.attempts + 1 < maxAttempts ==>
                  && |b.stream| == |r.stream| + 1 && b.stream[..|r.stream|] == r.stream && b.dead == r.dead
                  && Live(b, |r.stream|) && b.delivered <= |r.stream|
                  && b.stream[|r.stream|] ==
                     Payload(job.payload.session, job.payload.candidate, job.payload.attempts + 1, Some(job.message)))
            && (job.payload.attempts + 1 >= maxAttempts ==>
                  && b.stream == r.stream
                  && b.dead == r.dead + [Payload(job.payload.session, job.payload.candidate,
                                                 job.payload.attempts + 1, Some(job.message))])
  {
  }

  /** Done and terminal jobs are acknowledged as finished and leave no copy; deferred and lost ones stay as they were. */
  lemma OutcomesMean(r: Redis, job: Job, outcome: WorkOutcome, ackRaises: bool, maxAttempts: int)
    ensures var b := Settled(r, job, outcome, ackRaises, maxAttempts);
            && (outcome == MediaNotReady || outcome == LeaseLost ==> b == r)
            && (outcome == WorkFailed ==> b == Retried(r, job, maxAttempts))
            && (outcome == WorkCompleted || outcome == SessionTerminal ==>
                  if ackRaises then b == Retried(r, job, maxAttempts)
                  else OnlyAcknowledged(r, b, job.message) && b.finished == r.finished + {job.message})
  {
  }

  /** What a worker is handed: the idle entry if it names a session, else the oldest unread one if that does, else nothing. */
  lemma NextPrefersIdle(r: Redis, w: Worker, idle: Option<nat>)
    requires idle.Some? ==> idle.value in r.pending && idle.value < |r.stream|
    ensures var job := Next(r, w, idle).1;
            if idle.Some? && r.stream[idle.value].session.Some? then
              job == Some(Job(idle.value, r.stream[idle.value])) && Next(r, w, idle).0.delivered == r.delivered
            else if r.delivered < |r.stream| && r.stream[r.delivered].session.Some? then
              job == Some(Job(r.delivered, r.stream[r.delivered])) && Next(r, w, idle).0.delivered == r.delivered + 1
            else job.None?
  {
  }

  // ---- the client takes the steps of the system ----

  lemma RunOneMore(s: System, steps: seq<Step>, step: Step, maxAttempts: int)
    ensures Run(s, steps + [step], maxAttempts) == Apply(Run(s, steps, maxAttempts), step, maxAttempts)
  {
    assert (steps + [step])[..|steps|] == steps;
  }

  lemma RunTwoMore(s: System, steps: seq<Step>, x: Step, y: Step, maxAttempts: int)
    ensures Run(s, steps + [x, y], maxAttempts) ==
            Apply(Apply(Run(s, steps, maxAttempts), x, maxAttempts), y, maxAttempts)
  {
    assert steps + [x, y] == steps + [x] + [y];
    RunOneMore(s, steps, x, maxAttempts);
    RunOneMore(s, steps + [x], y, maxAttempts);
  }

  function WithJob(tasks: map<TaskId, Task>, task: TaskId, w: Worker, job: Option<Job>): map<TaskId, Task> {
    if job.Some? then tasks[task := Task(w, job.value, Working)] else tasks
  }

  /** Taking an entry up and acknowledging it is handing it out: the acknowledgement only takes effect on a malformed one. */
  lemma HandOutIsSteps(s: System, w: Worker, m: nat, task: TaskId, maxAttempts: int)
    requires m < |s.redis.stream| && task !in s.tasks
    ensures var (r, job) := HandOut(s.redis, m);
            Apply(TakeUp(s, task, w, m), Acknowledge(task), maxAttempts) == System(r, WithJob(s.tasks, task, w, job))
  {
    var t := Task(w, Job(m, s.redis.stream[m]), Discarding);
    assert s.tasks[task := t] - {task} == s.tasks;
  }

  lemma NextUnreadIsSteps(s: System, w: Worker, task: TaskId, maxAttempts: int)
    requires task !in s.tasks
    ensures var (r, job) := NextUnread(s.redis, w);
            Apply(Apply(s, Read(w, task), maxAttempts), Acknowledge(task), maxAttempts) ==
            System(r, WithJob(s.tasks, task, w, job))
  {
    if s.redis.delivered < |s.redis.stream| {
      HandOutIsSteps(s.(redis := ReadNew(s.redis, w)), w, s.redis.delivered, task, maxAttempts);
    }
  }

  /** The commands behind one call of next_job; a step whose turn does not come changes nothing. */
  function NextSteps(idle: Option<nat>, w: Worker, task: TaskId): seq<Step> {
    (if idle.None? then [] else [Claim(idle.value, w, task), Acknowledge(task)]) + [Read(w, task), Acknowledge(task)]
  }

  lemma HeldTaskBlocks(s: System, w: Worker, task: TaskId, maxAttempts: int)
    requires task in s.tasks && s.tasks[task].phase == Working
    ensures Apply(Apply(s, Read(w, task), maxAttempts), Acknowledge(task), maxAttempts) == s
  {
  }

  /** next_job is those steps: whatever it hands out is a task of this worker, and nothing else has happened. */
  lemma NextIsSteps(s: System, w: Worker, idle: Option<nat>, task: TaskId, maxAttempts: int)
    requires idle.Some? ==> idle.value in s.redis.pending && idle.value < |s.redis.stream|
    requires task !in s.tasks
    ensures var (r, job) := Next(s.redis, w, idle);
            Run(s, NextSteps(idle, w, task), maxAttempts) == System(r, WithJob(s.tasks, task, w, job))
  {
    hide Apply;
    var read, ack := Read(w, task), Acknowledge(task);
    if idle.None? {
      assert NextSteps(idle, w, task) == [] + [read, ack];
      RunTwoMore(s, [], read, ack, maxAttempts);
      NextUnreadIsSteps(s, w, task, maxAttempts);
    } else {
      var claim := Claim(idle.value, w, task);
      ClaimIsTakeUp(s, idle.value, w, task, maxAttempts);
      var claimed := s.(redis := Reclaim(s.redis, idle.value, w));
      HandOutIsSteps(claimed, w, idle.value, task, maxAttempts);
      var (r, job) := HandOut(claimed.redis, idle.value);
      var mid := System(r, WithJob(s.tasks, task, w, job));
      RunTwoMore(s, [], claim, ack, maxAttempts);
      assert [] + [claim, ack] == [claim, ack];
      RunTwoMore(s, [claim, ack], read, ack, maxAttempts);
      if job.Some? {
        HeldTaskBlocks(mid, w, task, maxAttempts);
      } else {
        NextUnreadIsSteps(mid, w, task, maxAttempts);
      }
    }
  }

  lemma ClaimIsTakeUp(s: System, m: nat, w: Worker, task: TaskId, maxAttempts: int)
    requires m in s.redis.pending && m < |s.redis.stream| && task !in s.tasks
    ensures Apply(s, Claim(m, w, task), maxAttempts) == TakeUp(s.(redis := Reclaim(s.redis, m, w)), task, w, m)
  {
  }

  /** The commands behind the end of one job. */
  function JobSteps(task: TaskId, outcome: WorkOutcome, ackRaises: bool): seq<Step> {
    match outcome
    case MediaNotReady => [Defer(task)]
    case LeaseLost => [Defer(task)]
    case WorkFailed => [Fail(task), Acknowledge(task)]
    case _ => if ackRaises then [Succeed(task), Fail(task), Acknowledge(task)] else [Succeed(task), Acknowledge(task)]
  }

  /** An uninterrupted retry is the two steps Fail and Acknowledge, between which the model lets a worker crash. */
  lemma RetryIsTwoSteps(s: System, task: TaskId, maxAttempts: int)
    requires task in s.tasks && (s.tasks[task].phase == Working || s.tasks[task].phase == Succeeded)
    ensures Apply(Apply(s, Fail(task), maxAttempts), Acknowledge(task), maxAttempts) ==
            System(Retried(s.redis, s.tasks[task].job, maxAttempts), s.tasks - {task})
  {
    var copied := Apply(s, Fail(task), maxAttempts);
    assert copied.tasks - {task} == s.tasks - {task};
  }

  lemma SucceedMarks(s: System, task: TaskId, maxAttempts: int)
    requires task in s.tasks && s.tasks[task].phase == Working
    ensures var end := Apply(s, Succeed(task), maxAttempts);
            && end.redis == s.redis && task in end.tasks && end.tasks - {task} == s.tasks - {task}
            && end.tasks[task] == s.tasks[task].(phase := Succeeded)
  {
  }

  lemma AcknowledgeFinishes(s: System, task: TaskId, maxAttempts: int)
    requires task in s.tasks && s.tasks[task].phase == Succeeded
    ensures Apply(s, Acknowledge(task), maxAttempts) == System(Finished(s.redis, s.tasks[task].job), s.tasks - {task})
  {
  }

  lemma DeferLeaves(s: System, task: TaskId, maxAttempts: int)
    requires task in s.tasks && s.tasks[task].phase == Working
    ensures Apply(s, Defer(task), maxAttempts) == System(s.redis, s.tasks - {task})
  {
  }

  lemma FirstStep(s: System, x: Step, maxAttempts: int)
    ensures Run(s, [x], maxAttempts) == Apply(s, x, maxAttempts)
  {
    assert [] + [x] == [x];
    RunOneMore(s, [], x, maxAttempts);
  }

  /** The end of a job is those steps, whatever the outcome, and the task is over. */
  lemma JobIsSteps(s: System, task: TaskId, outcome: WorkOutcome, ackRaises: bool, maxAttempts: int)
    requires task in s.tasks && s.tasks[task].phase == Working
    ensures Run(s, JobSteps(task, outcome, ackRaises), maxAttempts) ==
            System(Settled(s.redis, s.tasks[task].job, outcome, ackRaises, maxAttempts), s.tasks - {task})
  {
    hide Apply, Run, Retried, Finished;
    if outcome == MediaNotReady || outcome == LeaseLost {
      FirstStep(s, Defer(task), maxAttempts);
      DeferLeaves(s, task, maxAttempts);
    } else if outcome == WorkFailed {
      FirstStep(s, Fail(task), maxAttempts);
      assert JobSteps(task, outcome, ackRaises) == [Fail(task)] + [Acknowledge(task)];
      RunOneMore(s, [Fail(task)], Acknowledge(task), maxAttempts);
      RetryIsTwoSteps(s, task, maxAttempts);
    } else {
      FirstStep(s, Succeed(task), maxAttempts);
      SucceedMarks(s, task, maxAttempts);
      var succeeded := Apply(s, Succeed(task), maxAttempts);
      if ackRaises {
        assert JobSteps(task, outcome, ackRaises) == [Succeed(task)] + [Fail(task), Acknowledge(task)];
        RunTwoMore(s, [Succeed(task)], Fail(task), Acknowledge(task), maxAttempts);
        RetryIsTwoSteps(succeeded, task, maxAttempts);
      } else {
        assert JobSteps(task, outcome, ackRaises) == [Succeed(task)] + [Acknowledge(task)];
        RunOneMore(s, [Succeed(task)], Acknowledge(task), maxAttempts);
        AcknowledgeFinishes(succeeded, task, maxAttempts);
      }
    }
  }

  // ---- the client never loses a job ----

  /** Every entry on the stream is covered and in order. */
  ghost predicate Sound(r: Redis, maxAttempts: int) {
    Entries(r, maxAttempts) && AllCovered(r)
  }

  /** The job was handed out: it is a delivered entry that names a session. */
  predicate Claimed(r: Redis, job: Job) {
    && job.message < r.delivered && job.message < |r.stream| && r.stream[job.message] == job.payload
    && job.payload.session.Some?
  }

  lemma NextKeepsSound(r: Redis, w: Worker, idle: Option<nat>, maxAttempts: int)
    requires Sound(r, maxAttempts)
    requires idle.Some? ==> idle.value in r.pending && idle.value < |r.stream|
    ensures Sound(Next(r, w, idle).0, maxAttempts)
  {
    hide Next, Run, Covered, EntryOk;
    var s := System(r, map[]);
    NextIsSteps(s, w, idle, 0, maxAttempts);
    RunKeepsInv(s, NextSteps(idle, w, 0), maxAttempts);
  }

  lemma JobKeepsSound(r: Redis, w: Worker, job: Job, outcome: WorkOutcome, ackRaises: bool, maxAttempts: int)
    requires Sound(r, maxAttempts) && Claimed(r, job)
    ensures Sound(Settled(r, job, outcome, ackRaises, maxAttempts), maxAttempts)
  {
    hide Settled, Run, Covered, EntryOk;
    var s := System(r, map[0 := Task(w, job, Working)]);
    assert Inv(s, maxAttempts);
    JobIsSteps(s, 0, outcome, ackRaises, maxAttempts);
    RunKeepsInv(s, JobSteps(0, outcome, ackRaises), maxAttempts);
  }

  class RedisAgentJoinQueue {
    const worker: Worker
    const maxAttempts: int
    var redis: Redis

    ghost predicate Valid()
      reads this
    {
      Sound(redis, maxAttempts)
    }

    constructor (worker: Worker, maxAttempts: int, redis: Redis)
      ensures this.worker == worker && this.maxAttempts == maxAttempts && this.redis == redis
    {
      this.worker, this.maxAttempts, this.redis := worker, maxAttempts, redis;
    }

    /** A payload without a session is dead-lettered and acknowledged on the spot. */
    method JobFromMessage(m: nat) returns (job: Option<Job>)
      requires m < |redis.stream|
      modifies this
      ensures (redis, job) == HandOut(old(redis), m)
    {
      var p := redis.stream[m];
      if p.session.None? {
        redis := XAddDead(redis, Unreadable(m));
        redis := XAck(redis, m);
        return None;
      }
      job := Some(Job(m, p));
    }

    /** A stale pending entry first, if Redis finds one idle; otherwise the next unread entry. */
    method NextJob(idle: Option<nat>) returns (job: Option<Job>)
      requires Valid()
      requires idle.Some? ==> idle.value in redis.pending && idle.value < |redis.stream|
      modifies this
      ensures Valid()
      ensures (redis, job) == Next(old(redis), worker, idle)
      ensures job.Some? ==> Claimed(redis, job.value) && Leased(redis, job.value.message, worker)
      ensures redis.stream == old(redis).stream && redis.finished == old(redis).finished
      ensures forall k: nat | Live(old(redis), k) && redis.stream[k].session.Some? :: Live(redis, k)
      ensures forall p | p in old(redis).dead :: p in redis.dead
    {
      NextKeepsSound(redis, worker, idle, maxAttempts);
      assert redis.delivered <= |redis.stream| && forall m | m in redis.pending :: m < redis.delivered;
      hide Sound;
      if idle.Some? {
        redis := Reclaim(redis, idle.value, worker);
        job := JobFromMessage(idle.value);
        if job.Some? {
          return;
        }
      }
      if redis.delivered >= |redis.stream| {
        return None;
      }
      var m := redis.delivered;
      redis := ReadNew(redis, worker);
      job := JobFromMessage(m);
    }

    method Ack(job: Job)
      modifies this
      ensures redis == XAck(old(redis), job.message)
    {
      redis := XAck(redis, job.message);
    }

    /** Acknowledges a job whose interview is over, and notes the entry in the history. */
    method AckFinished(job: Job)
      modifies this
      ensures redis == Finished(old(redis), job)
    {
      redis := redis.(finished := redis.finished + {job.message});
      Ack(job);
    }

    /** Writes the copy before it acknowledges the original, so a crash in between duplicates and never loses. */
    method Retry(job: Job)
      modifies this
      ensures redis == Retried(old(redis), job, maxAttempts)
    {
      var copy := RetryCopy(job);
      if copy.attempts >= maxAttempts {
        redis := XAddDead(redis, copy);
        Ack(job);
        return;
      }
      redis := XAdd(redis, copy);
      Ack(job);
    }

    /** The lease is renewed only for the worker the entry is still pending on. */
    method RenewLease(m: nat) returns (renewed: bool)
      ensures renewed <==> Leased(redis, m, worker)
    {
      renewed := m in redis.pending && redis.pending[m] == worker;
    }
  }

  class AutoWorker {
    const queue: RedisAgentJoinQueue
    var completedJobs: nat
    var processedJobs: nat

    constructor (queue: RedisAgentJoinQueue)
      ensures this.queue == queue && completedJobs == 0 && processedJobs == 0
    {
      this.queue, completedJobs, processedJobs := queue, 0, 0;
    }

    /**
     * One claimed job: acknowledged when done or terminal, retried when it failed, otherwise left pending. An
     * acknowledgement that raises counts as a failure, so even a finished interview is copied rather than dropped.
     */
    method RunJob(job: Job, outcome: WorkOutcome, ackRaises: bool)
      requires queue.Valid() && Claimed(queue.redis, job)
      modifies this, queue
      ensures queue.Valid()
      ensures queue.redis == Settled(old(queue.redis), job, outcome, ackRaises, queue.maxAttempts)
      ensures processedJobs == old(processedJobs) + 1
      ensures completedJobs == old(completedJobs) + (if outcome == WorkCompleted && !ackRaises then 1 else 0)
    {
      JobKeepsSound(queue.redis, queue.worker, job, outcome, ackRaises, queue.maxAttempts);
      hide Sound, Retried, Finished;
      var failed := outcome == WorkFailed;
      if outcome == WorkCompleted || outcome == SessionTerminal {
        if ackRaises {
          failed := true;
        } else {
          queue.AckFinished(job);
          if outcome == WorkCompleted {
            completedJobs := completedJobs + 1;
          }
        }
      }
      if failed {
        queue.Retry(job);
      }
      processedJobs := processedJobs + 1;
    }
  }
}
