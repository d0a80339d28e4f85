/**
 Durable backfill jobs: the job table and its audit trail, operators who create, pause, resume and
 cancel at any moment, and the one worker that claims a job and commits its batches.
 */
module Backfill {
  import opened Common
  import opened Records

  datatype JobState = Queued | Running | Paused | Completed | Failed | Cancelled

  /** `batchSize` is that of the listener in the captured snapshot. */
  datatype Job = Job(
    listener: nat, from: nat, to: nat, batchSize: nat, createdAt: int, next: nat, state: JobState,
    processed: nat, discovered: nat, created: nat, deliveries: nat, duplicates: nat)

  datatype Action = Create | Enter(state: JobState)

  datatype Entry = Entry(job: nat, action: Action)

  datatype Jobs = Jobs(rows: map<nat, Job>, audit: seq<Entry>)

  predicate Active(s: JobState) {
    s == Queued || s == Running || s == Paused
  }

  /** The partial unique index: another active job of this listener stands in the way. */
  predicate Taken(rows: map<nat, Job>, id: nat, listener: nat) {
    exists other | other in rows :: other != id && rows[other].listener == listener && Active(rows[other].state)
  }

  // ------------------------------------------------------------ store calls

  /** prepareBackfill's range test, in 64-bit arithmetic. */
  predicate RangeAccepted(start: nat, from: nat, to: nat, maxRange: nat)
    requires from <= MAX_UINT64 && to <= MAX_UINT64
  {
    !(from < start || to < from || AddU64(SubU64(to, from), 1) > maxRange)
  }

  /** The range test means what it says if and only if it is not asked for all 2^64 blocks. */
  lemma RangeTestIff(start: nat, from: nat, to: nat, maxRange: nat)
    requires from <= MAX_UINT64 && to <= MAX_UINT64 && maxRange <= MAX_UINT64
    ensures (RangeAccepted(start, from, to, maxRange) <==> start <= from <= to && to - from + 1 <= maxRange) <==>
            !(start == 0 && from == 0 && to == MAX_UINT64)
  {
    if from <= to {
      assert SubU64(to, from) == to - from;
      if to - from < MAX_UINT64 {
        assert AddU64(to - from, 1) == to - from + 1;
      } else {
        assert AddU64(to - from, 1) == 0;
      }
    }
  }

  function NewJob(listener: nat, from: nat, to: nat, batchSize: nat, at: int): Job {
    Job(listener, from, to, batchSize, at, from, Queued, 0, 0, 0, 0, 0)
  }

  function CreateJob(j: Jobs, id: nat, job: Job): Result<Jobs, Error> {
    if job.to > MAX_INT64 then Err(OutOfRange)
    else if id in j.rows || Taken(j.rows, id, job.listener) then Err(ActiveBackfill)
    else Ok(Jobs(j.rows[id := job], j.audit + [Entry(id, Create)]))
  }

  predicate MoveAllowed(from: JobState, to: JobState) {
    match to
    case Paused => from == Queued || from == Running
    case Queued => from == Paused || from == Failed
    case Cancelled => from == Queued || from == Running || from == Paused || from == Failed
    case _ => false
  }

  function Enters(j: Jobs, id: nat, job: Job): Jobs {
    Jobs(j.rows[id := job], j.audit + [Entry(id, Enter(job.state))])
  }

  /** `read` is the state the call saw before it opened its transaction. */
  function MoveJob(j: Jobs, id: nat, read: JobState, to: JobState): Result<Jobs, Error> {
    if !MoveAllowed(read, to) || id !in j.rows || j.rows[id].state != read then Err(BackfillState)
    else if Active(to) && Taken(j.rows, id, j.rows[id].listener) then Err(ActiveBackfill)
    else Ok(Enters(j, id, j.rows[id].(state := to)))
  }

  /** ORDER BY running first, then creation time. */
  predicate Claimable(j: Jobs, id: nat) {
    && id in j.rows && (j.rows[id].state == Queued || j.rows[id].state == Running)
    && forall other | other in j.rows && (j.rows[other].state == Queued || j.rows[other].state == Running) ::
         || (j.rows[id].state == Running && j.rows[other].state == Queued)
         || (j.rows[id].state == j.rows[other].state && j.rows[id].createdAt <= j.rows[other].createdAt)
  }

  function ClaimJob(j: Jobs, id: nat): Jobs
    requires id in j.rows
  {
    if j.rows[id].state == Queued then Enters(j, id, j.rows[id].(state := Running)) else j
  }

  datatype Counts = Counts(discovered: nat, created: nat, deliveries: nat, duplicates: nat)

  /** `next` == 0 says that the range is finished. */
  function SavedJob(job: Job, next: nat, processed: nat, c: Counts): Job {
    job.(next := if next == 0 then job.to + 1 else next, processed := job.processed + processed,
         discovered := job.discovered + c.discovered, created := job.created + c.created,
         deliveries := job.deliveries + c.deliveries, duplicates := job.duplicates + c.duplicates,
         state := if next == 0 then Completed else Running)
  }

  function SaveJob(j: Jobs, id: nat, next: nat, processed: nat, c: Counts): Result<Jobs, Error> {
    if id !in j.rows || j.rows[id].state != Running then Err(BackfillState)
    else
      var job := SavedJob(j.rows[id], next, processed, c);
      if next == 0 then Ok(Enters(j, id, job)) else Ok(j.(rows := j.rows[id := job]))
  }

  function FailJob(j: Jobs, id: nat): Jobs {
    if id in j.rows && j.rows[id].state == Running then Enters(j, id, j.rows[id].(state := Failed)) else j
  }

  // ------------------------------------------------------------- the machine

  /** A committed batch of blocks lo, ..., hi, and what its transaction counted. */
  datatype Range = Range(lo: nat, hi: nat, counts: Counts)

  /** What the worker carries between its claim and its next store call. */
  datatype Held = Held(id: nat, next: nat)

  datatype Machine = Machine(jobs: Jobs, worker: Option<Held>, batches: map<nat, seq<Range>>)

  const START := Machine(Jobs(map[], []), None, map[])

  datatype Step =
    | Request(id: nat, job: Job)
    | Move(id: nat, read: JobState, to: JobState)
    | Claim(id: nat)
    | Save(counts: Counts)
    | Fail
    | Abandon

  /** The worker's batch. */
  function BatchTo(job: Job, next: nat): nat
    requires next <= job.to <= MAX_INT64 && 1 <= job.batchSize <= MAX_INT64
  {
    BatchEnd(next, job.batchSize, job.to)
  }

  function NextFor(job: Job, to: nat): nat {
    if to == job.to then 0 else to + 1
  }

  ghost predicate Enabled(m: Machine, s: Step) {
    match s
    case Request(_, job) =>
      job == NewJob(job.listener, job.from, job.to, job.batchSize, job.createdAt)
      && job.from <= job.to && 1 <= job.batchSize <= MAX_INT64
    case Move(_, _, _) => true
    case Claim(id) => m.worker.None? && Claimable(m.jobs, id)
    case Save(c) => m.worker.Some? && c.discovered == c.created + c.duplicates
    case Fail => m.worker.Some?
    case Abandon => m.worker.Some?
  }

  function OrSame(j: Jobs, r: Result<Jobs, Error>): Jobs {
    match r case Ok(j') => j' case Err(_) => j
  }

  /** The worker's commit; it fails when the job was taken out of `running` in the meantime. */
  ghost function Commit(m: Machine, c: Counts): Machine
    requires m.worker.Some? && WorkerInStep(m)
  {
    var id, next := m.worker.value.id, m.worker.value.next;
    var job := m.jobs.rows[id];
    var to := BatchTo(job, next);
    match SaveJob(m.jobs, id, NextFor(job, to), to - next + 1, c)
    case Err(_) => m
    case Ok(jobs) => Machine(jobs, None, m.batches[id := BatchesOf(m, id) + [Range(next, to, c)]])
  }

  function BatchesOf(m: Machine, id: nat): seq<Range> {
    if id in m.batches then m.batches[id] else []
  }

  ghost function Apply(m: Machine, s: Step): Machine
    requires Progress(m) && Enabled(m, s)
  {
    match s
    case Request(id, job) => m.(jobs := OrSame(m.jobs, CreateJob(m.jobs, id, job)))
    case Move(id, read, to) => m.(jobs := OrSame(m.jobs, MoveJob(m.jobs, id, read, to)))
    case Claim(id) => m.(jobs := ClaimJob(m.jobs, id), worker := Some(Held(id, m.jobs.rows[id].next)))
    case Save(c) => Commit(m, c)
    case Fail => m.(jobs := FailJob(m.jobs, m.worker.value.id), worker := None)
    case Abandon => m.(worker := None)
  }

  // -------------------------------------------------------------- invariants

  /** Ascending, disjoint, consecutive batches that cover from, ..., next - 1. */
  ghost predicate Consecutive(bs: seq<Range>, from: nat, next: nat, size: nat) {
    && (if bs == [] then next == from else bs[0].lo == from && bs[|bs| - 1].hi + 1 == next)
    && (forall i | 0 <= i < |bs| :: bs[i].lo <= bs[i].hi && bs[i].hi - bs[i].lo + 1 <= size)
    && (forall i, j | 0 <= i < j < |bs| && j == i + 1 :: bs[j].lo == bs[i].hi + 1)
  }

  /** Everything the committed batches counted. */
  function Totals(bs: seq<Range>): Counts {
    if bs == [] then Counts(0, 0, 0, 0)
    else
      var before, last := Totals(bs[..|bs| - 1]), bs[|bs| - 1].counts;
      Counts(before.discovered + last.discovered, before.created + last.created,
             before.deliveries + last.deliveries, before.duplicates + last.duplicates)
  }

  /** The job's position follows its batches, and its counters are their totals. */
  ghost predicate BatchesOk(job: Job, bs: seq<Range>) {
    && Consecutive(bs, job.from, job.next, job.batchSize)
    && job.discovered == Totals(bs).discovered && job.created == Totals(bs).created
    && job.deliveries == Totals(bs).deliveries && job.duplicates == Totals(bs).duplicates
  }

  predicate JobOk(job: Job) {
    && job.from <= job.next <= job.to + 1 && job.to <= MAX_INT64 && 1 <= job.batchSize <= MAX_INT64
    && job.processed == job.next - job.from
    && (job.state == Completed <==> job.next == job.to + 1)
    && job.discovered == job.created + job.duplicates
  }

  /** The worker's copy of its job is still the job's position, and it is within the job's range. */
  ghost predicate WorkerInStep(m: Machine) {
    m.worker.Some? ==>
      var h := m.worker.value;
      && h.id in m.jobs.rows && JobOk(m.jobs.rows[h.id])
      && m.jobs.rows[h.id].next == h.next <= m.jobs.rows[h.id].to
  }

  predicate Unfinished(s: JobState) {
    s != Completed && s != Cancelled && s != Failed
  }

  ghost predicate OneActive(rows: map<nat, Job>) {
    forall a, b | a in rows && b in rows && a != b && rows[a].listener == rows[b].listener ::
      !(Unfinished(rows[a].state) && Unfinished(rows[b].state))
  }

  /** What one job's audit trail says so far. */
  datatype Trail = Absent | At(state: JobState) | Broken

  /** The state diagram of a job. */
  predicate Legal(from: JobState, to: JobState) {
    match from
    case Queued => to == Running || to == Paused || to == Cancelled
    case Running => to == Paused || to == Completed || to == Failed || to == Cancelled
    case Paused => to == Queued || to == Cancelled
    case Failed => to == Queued || to == Cancelled
    case Completed => false
    case Cancelled => false
  }

  /** Operators may make exactly the moves of the diagram that are not the engine's own. */
  lemma OperatorMoves(from: JobState, to: JobState)
    ensures MoveAllowed(from, to) <==> Legal(from, to) && to != Running && to != Completed && to != Failed
  {
  }

  function Follow(t: Trail, a: Action): Trail {
    match a
    case Create => if t.Absent? then At(Queued) else Broken
    case Enter(state) => if t.At? && Legal(t.state, state) then At(state) else Broken
  }

  /** Replay a job's audit actions in order. */
  function Replay(audit: seq<Entry>, id: nat): Trail {
    if audit == [] then Absent
    else
      var n := |audit| - 1;
      var before := Replay(audit[..n], id);
      if audit[n].job == id then Follow(before, audit[n].action) else before
  }

  ghost predicate Audited(j: Jobs) {
    forall id :: Replay(j.audit, id) == if id in j.rows then At(j.rows[id].state) else Absent
  }

  ghost predicate Partitioned(m: Machine) {
    && (forall id | id in m.batches :: id in m.jobs.rows)
    && (forall id | id in m.jobs.rows ::
          BatchesOk(m.jobs.rows[id], BatchesOf(m, id)))
  }

  ghost predicate JobsOk(rows: map<nat, Job>) {
    forall id | id in rows :: JobOk(rows[id])
  }

  /** Counters, batches and the worker's position. */
  ghost predicate Progress(m: Machine) {
    JobsOk(m.jobs.rows) && Partitioned(m) && WorkerInStep(m)
  }

  /** What the job table keeps whoever calls it. */
  ghost predicate TableOk(j: Jobs) {
    OneActive(j.rows) && Audited(j)
  }

  lemma StartHolds()
    ensures Progress(START) && TableOk(START.jobs)
  {
  }

  // ------------------------------------------------ the table, call by call

  lemma ReplaySnoc(audit: seq<Entry>, e: Entry, id: nat)
    ensures Replay(audit + [e], id) ==
            if e.job == id then Follow(Replay(audit, id), e.action) else Replay(audit, id)
  {
    assert (audit + [e])[..|audit|] == audit;
  }

  /** Entering a state by a legal move keeps the trail true. */
  lemma EntersIsAudited(j: Jobs, id: nat, job: Job)
    requires Audited(j) && id in j.rows && Legal(j.rows[id].state, job.state)
    ensures Audited(Enters(j, id, job))
  {
    var e := Entry(id, Enter(job.state));
    forall x { ReplaySnoc(j.audit, e, x); }
  }

  lemma ActiveIsNotTaken(rows: map<nat, Job>, id: nat)
    requires OneActive(rows) && id in rows && Active(rows[id].state)
    ensures !Taken(rows, id, rows[id].listener)
  {
  }

  lemma StillOneActive(rows: map<nat, Job>, id: nat, job: Job)
    requires OneActive(rows) && !(Active(job.state) && Taken(rows, id, job.listener))
    ensures OneActive(rows[id := job])
  {
  }

  lemma EnterKeepsTable(j: Jobs, id: nat, job: Job)
    requires TableOk(j) && id in j.rows && Legal(j.rows[id].state, job.state)
    requires !(Active(job.state) && Taken(j.rows, id, job.listener))
    ensures TableOk(Enters(j, id, job))
  {
    EntersIsAudited(j, id, job);
    StillOneActive(j.rows, id, job);
  }

  lemma CreateKeepsTable(j: Jobs, id: nat, job: Job)
    requires TableOk(j) && job.state == Queued && CreateJob(j, id, job).Ok?
    ensures TableOk(CreateJob(j, id, job).value)
  {
    forall x { ReplaySnoc(j.audit, Entry(id, Create), x); }
    StillOneActive(j.rows, id, job);
  }

  lemma MoveKeepsTable(j: Jobs, id: nat, read: JobState, to: JobState)
    requires TableOk(j) && MoveJob(j, id, read, to).Ok?
    ensures TableOk(MoveJob(j, id, read, to).value)
  {
    EnterKeepsTable(j, id, j.rows[id].(state := to));
  }

  lemma ClaimKeepsTable(j: Jobs, id: nat)
    requires TableOk(j) && Claimable(j, id)
    ensures TableOk(ClaimJob(j, id))
  {
    ActiveIsNotTaken(j.rows, id);
    if j.rows[id].state == Queued {
      EnterKeepsTable(j, id, j.rows[id].(state := Running));
    }
  }

  lemma SaveKeepsTable(j: Jobs, id: nat, next: nat, processed: nat, c: Counts)
    requires TableOk(j) && SaveJob(j, id, next, processed, c).Ok?
    ensures TableOk(SaveJob(j, id, next, processed, c).value)
  {
    ActiveIsNotTaken(j.rows, id);
    var job := SavedJob(j.rows[id], next, processed, c);
    if next == 0 {
      EnterKeepsTable(j, id, job);
    } else {
      StillOneActive(j.rows, id, job);
    }
  }

  lemma FailKeepsTable(j: Jobs, id: nat)
    requires TableOk(j)
    ensures TableOk(FailJob(j, id))
  {
    if id in j.rows && j.rows[id].state == Running {
      EnterKeepsTable(j, id, j.rows[id].(state := Failed));
    }
  }

  lemma StepKeepsTable(m: Machine, s: Step)
    requires Progress(m) && Enabled(m, s) && TableOk(m.jobs)
    ensures TableOk(Apply(m, s).jobs)
  {
    match s
    case Request(id, job) => if CreateJob(m.jobs, id, job).Ok? { CreateKeepsTable(m.jobs, id, job); }
    case Move(id, read, to) => if MoveJob(m.jobs, id, read, to).Ok? { MoveKeepsTable(m.jobs, id, read, to); }
    case Claim(id) => ClaimKeepsTable(m.jobs, id);
    case Save(c) => CommitKeepsTable(m, c);
    case Fail => FailKeepsTable(m.jobs, m.worker.value.id);
    case Abandon =>
  }

  lemma CommitKeepsTable(m: Machine, c: Counts)
    requires m.worker.Some? && WorkerInStep(m) && TableOk(m.jobs)
    ensures TableOk(Commit(m, c).jobs)
  {
    var id, next := m.worker.value.id, m.worker.value.next;
    var job := m.jobs.rows[id];
    var to := BatchTo(job, next);
    BatchEndDoesNotWrap(next, job.batchSize, job.to);
    if SaveJob(m.jobs, id, NextFor(job, to), to - next + 1, c).Ok? {
      SaveKeepsTable(m.jobs, id, NextFor(job, to), to - next + 1, c);
    }
  }

  // ---------------------------------------------------------------- progress

  /** FetchRange's size guard never rejects the range the worker asks for. */
  lemma WorkerRangeFits(m: Machine)
    requires Progress(m) && m.worker.Some?
    ensures var job, next := m.jobs.rows[m.worker.value.id], m.worker.value.next;
            next <= BatchTo(job, next) <= job.to && BatchTo(job, next) - next + 1 <= job.batchSize
  {
    var job, next := m.jobs.rows[m.worker.value.id], m.worker.value.next;
    BatchEndDoesNotWrap(next, job.batchSize, job.to);
  }

  lemma SavedJobIsOk(job: Job, c: Counts)
    requires JobOk(job) && job.state == Running && c.discovered == c.created + c.duplicates
    ensures var to := BatchTo(job, job.next);
            var job' := SavedJob(job, NextFor(job, to), to - job.next + 1, c);
            && job.next <= to && to - job.next + 1 <= job.batchSize
            && JobOk(job') && job'.next == to + 1 && (job'.state == Completed <==> to == job.to)
  {
    BatchEndDoesNotWrap(job.next, job.batchSize, job.to);
  }

  lemma AppendBatch(job: Job, bs: seq<Range>, to: nat, job': Job, c: Counts)
    requires BatchesOk(job, bs) && job.next <= to && to - job.next + 1 <= job.batchSize
    requires job'.from == job.from && job'.batchSize == job.batchSize && job'.next == to + 1
    requires job'.discovered == job.discovered + c.discovered && job'.created == job.created + c.created
    requires job'.deliveries == job.deliveries + c.deliveries && job'.duplicates == job.duplicates + c.duplicates
    ensures BatchesOk(job', bs + [Range(job.next, to, c)])
  {
    var more := bs + [Range(job.next, to, c)];
    assert more[..|bs|] == bs;
  }

  /** One row is replaced, with its batches; the others stand. */
  lemma Replaced(m: Machine, m': Machine, id: nat)
    requires JobsOk(m.jobs.rows) && Partitioned(m) && id in m'.jobs.rows
    requires m'.jobs.rows == m.jobs.rows[id := m'.jobs.rows[id]] && JobOk(m'.jobs.rows[id])
    requires m'.batches == m.batches || m'.batches == m.batches[id := BatchesOf(m', id)]
    requires BatchesOk(m'.jobs.rows[id], BatchesOf(m', id))
    ensures JobsOk(m'.jobs.rows) && Partitioned(m')
  {
    forall x | x in m'.jobs.rows
      ensures JobOk(m'.jobs.rows[x]) && BatchesOk(m'.jobs.rows[x], BatchesOf(m', x))
    {
      if x != id { assert BatchesOf(m', x) == BatchesOf(m, x); }
    }
  }

  /** A change of state alone, to one in which the job is not completed. */
  lemma EnterKeepsProgress(m: Machine, id: nat, to: JobState)
    requires Progress(m) && id in m.jobs.rows && Legal(m.jobs.rows[id].state, to) && to != Completed
    ensures Progress(m.(jobs := Enters(m.jobs, id, m.jobs.rows[id].(state := to))))
  {
    assert JobOk(m.jobs.rows[id]);
    Replaced(m, m.(jobs := Enters(m.jobs, id, m.jobs.rows[id].(state := to))), id);
  }

  lemma RequestKeepsProgress(m: Machine, id: nat, job: Job)
    requires Progress(m) && Enabled(m, Request(id, job)) && CreateJob(m.jobs, id, job).Ok?
    ensures Progress(m.(jobs := CreateJob(m.jobs, id, job).value))
  {
    assert BatchesOf(m, id) == [];
    Replaced(m, m.(jobs := CreateJob(m.jobs, id, job).value), id);
  }

  lemma ClaimKeepsProgress(m: Machine, id: nat)
    requires Progress(m) && m.worker.None? && Claimable(m.jobs, id)
    ensures Progress(m.(jobs := ClaimJob(m.jobs, id), worker := Some(Held(id, m.jobs.rows[id].next))))
  {
    assert JobOk(m.jobs.rows[id]);
    var claimed := m.(jobs := ClaimJob(m.jobs, id));
    if m.jobs.rows[id].state == Queued {
      EnterKeepsProgress(m, id, Running);
    }
    assert Progress(claimed);
    WorkerTakes(claimed, Held(id, m.jobs.rows[id].next));
  }

  lemma WorkerTakes(m: Machine, h: Held)
    requires JobsOk(m.jobs.rows) && Partitioned(m) && h.id in m.jobs.rows
    requires m.jobs.rows[h.id].state != Completed && m.jobs.rows[h.id].next == h.next
    ensures Progress(m.(worker := Some(h)))
  {
    assert JobOk(m.jobs.rows[h.id]);
  }

  lemma FailKeepsProgress(m: Machine, id: nat)
    requires Progress(m)
    ensures Progress(m.(jobs := FailJob(m.jobs, id)))
  {
    if id in m.jobs.rows && m.jobs.rows[id].state == Running {
      EnterKeepsProgress(m, id, Failed);
    }
  }

  lemma CommitKeepsProgress(m: Machine, c: Counts)
    requires Progress(m) && m.worker.Some? && c.discovered == c.created + c.duplicates
    ensures Progress(Commit(m, c))
  {
    var id, next := m.worker.value.id, m.worker.value.next;
    var job := m.jobs.rows[id];
    if job.state == Running {
      SavedJobIsOk(job, c);
      var to := BatchTo(job, next);
      AppendBatch(job, BatchesOf(m, id), to, SavedJob(job, NextFor(job, to), to - next + 1, c), c);
      Replaced(m, Commit(m, c), id);
    }
  }

  /** A save that the table accepts is the worker's commit. */
  lemma SaveCommits(m: Machine, c: Counts, table: Jobs)
    requires m.worker.Some? && WorkerInStep(m)
    requires var id, next := m.worker.value.id, m.worker.value.next;
             var job := m.jobs.rows[id];
             next <= BatchTo(job, next) &&
             SaveJob(m.jobs, id, NextFor(job, BatchTo(job, next)), BatchTo(job, next) - next + 1, c) == Ok(table)
    ensures Commit(m, c).jobs == table && Commit(m, c).worker.None?
  {
  }

  lemma StepKeepsProgress(m: Machine, s: Step)
    requires Progress(m) && Enabled(m, s)
    ensures Progress(Apply(m, s))
  {
    match s
    case Request(id, job) => if CreateJob(m.jobs, id, job).Ok? { RequestKeepsProgress(m, id, job); }
    case Move(id, read, to) => if MoveJob(m.jobs, id, read, to).Ok? { EnterKeepsProgress(m, id, to); }
    case Claim(id) => ClaimKeepsProgress(m, id);
    case Save(c) => CommitKeepsProgress(m, c);
    case Fail => FailKeepsProgress(m, m.worker.value.id);
    case Abandon =>
  }

  // ------------------------------------------------------------- whole runs

  ghost predicate Run(m: Machine, steps: seq<Step>)
    requires Progress(m)
    decreases |steps|
  {
    steps == [] || (Enabled(m, steps[0]) && (StepKeepsProgress(m, steps[0]); Run(Apply(m, steps[0]), steps[1..])))
  }

  ghost function After(m: Machine, steps: seq<Step>): (r: Machine)
    requires Progress(m) && Run(m, steps)
    decreases |steps|
  {
    if steps == [] then m else (StepKeepsProgress(m, steps[0]); After(Apply(m, steps[0]), steps[1..]))
  }

  /**
   In every interleaving of operators and the worker: every job's committed batches are ascending, disjoint
   and consecutive from its first block to its position; its counters are their totals; it is completed exactly when
   its range is done; no listener has two active jobs; and replaying the audit trail gives its state.
   */
  lemma {:induction false} EveryRunIsOrderly(m: Machine, steps: seq<Step>)
    requires Progress(m) && TableOk(m.jobs) && Run(m, steps)
    ensures Progress(After(m, steps)) && TableOk(After(m, steps).jobs)
    decreases |steps|
  {
    if steps != [] {
      StepKeepsProgress(m, steps[0]);
      StepKeepsTable(m, steps[0]);
      EveryRunIsOrderly(Apply(m, steps[0]), steps[1..]);
    }
  }

  lemma {:induction false} RunSnoc(m: Machine, steps: seq<Step>, s: Step)
    requires Progress(m) && Run(m, steps) && Progress(After(m, steps)) && Enabled(After(m, steps), s)
    ensures Run(m, steps + [s]) && After(m, steps + [s]) == Apply(After(m, steps), s)
    decreases |steps|
  {
    if steps == [] {
      assert steps + [s] == [s] && [s][1..] == [];
    } else {
      StepKeepsProgress(m, steps[0]);
      RunSnoc(Apply(m, steps[0]), steps[1..], s);
      assert (steps + [s])[1..] == steps[1..] + [s];
    }
  }

  predicate Final(j: Jobs, id: nat) {
    id in j.rows && (j.rows[id].state == Completed || j.rows[id].state == Cancelled)
  }

  /** No store call touches a completed or cancelled job. */
  lemma CallsSpareFinal(j: Jobs, id: nat, other: nat)
    requires Final(j, id)
    ensures forall job | CreateJob(j, other, job).Ok? :: CreateJob(j, other, job).value.rows[id] == j.rows[id]
    ensures forall read, to | MoveJob(j, other, read, to).Ok? ::
              MoveJob(j, other, read, to).value.rows[id] == j.rows[id]
    ensures Claimable(j, other) ==> other != id && ClaimJob(j, other).rows[id] == j.rows[id]
    ensures forall next, processed, c | SaveJob(j, other, next, processed, c).Ok? ::
              other != id && SaveJob(j, other, next, processed, c).value.rows[id] == j.rows[id]
    ensures FailJob(j, other).rows[id] == j.rows[id]
  {
  }

  lemma FinalStepStands(m: Machine, s: Step, id: nat)
    requires Progress(m) && Enabled(m, s) && Final(m.jobs, id)
    ensures id in Apply(m, s).jobs.rows && Apply(m, s).jobs.rows[id] == m.jobs.rows[id]
    ensures BatchesOf(Apply(m, s), id) == BatchesOf(m, id)
  {
    match s
    case Request(x, _) => CallsSpareFinal(m.jobs, id, x);
    case Move(x, _, _) => CallsSpareFinal(m.jobs, id, x);
    case Claim(x) => CallsSpareFinal(m.jobs, id, x);
    case Save(_) => CallsSpareFinal(m.jobs, id, m.worker.value.id);
    case Fail => CallsSpareFinal(m.jobs, id, m.worker.value.id);
    case Abandon =>
  }

  /** Completed and cancelled are absorbing: nothing of such a job ever changes again. */
  lemma {:induction false} FinalStatesAbsorb(m: Machine, steps: seq<Step>, id: nat)
    requires Progress(m) && Run(m, steps) && Final(m.jobs, id)
    ensures id in After(m, steps).jobs.rows && After(m, steps).jobs.rows[id] == m.jobs.rows[id]
    ensures BatchesOf(After(m, steps), id) == BatchesOf(m, id)
    decreases |steps|
  {
    if steps != [] {
      StepKeepsProgress(m, steps[0]);
      FinalStepStands(m, steps[0], id);
      FinalStatesAbsorb(Apply(m, steps[0]), steps[1..], id);
    }
  }

  lemma {:induction false} BatchesAscend(bs: seq<Range>, from: nat, next: nat, size: nat, i: nat, j: nat)
    requires Consecutive(bs, from, next, size) && i < j < |bs|
    ensures bs[i].hi < bs[j].lo
    decreases j
  {
    assert bs[j].lo == bs[j - 1].hi + 1;
    if i < j - 1 {
      BatchesAscend(bs, from, next, size, i, j - 1);
    }
  }

  /** Every block below a job's position was committed in exactly one of its batches, and no other block was. */
  lemma BlocksCommittedOnce(bs: seq<Range>, from: nat, next: nat, size: nat, block: nat)
    requires Consecutive(bs, from, next, size)
    ensures from <= block < next <==> exists i :: 0 <= i < |bs| && bs[i].lo <= block <= bs[i].hi
    ensures forall i, j | 0 <= i < |bs| && 0 <= j < |bs|
                          && bs[i].lo <= block <= bs[i].hi && bs[j].lo <= block <= bs[j].hi :: i == j
  {
    forall i, j | 0 <= i < j < |bs| ensures bs[i].hi < bs[j].lo {
      BatchesAscend(bs, from, next, size, i, j);
    }
    if from <= block < next {
      var i := FindBatch(bs, from, next, size, block);
    }
  }

  lemma {:induction false} FindBatch(bs: seq<Range>, from: nat, next: nat, size: nat, block: nat) returns (i: nat)
    requires Consecutive(bs, from, next, size) && from <= block < next
    ensures i < |bs| && bs[i].lo <= block <= bs[i].hi
    decreases |bs|
  {
    var n := |bs| - 1;
    if bs[n].lo <= block {
      i := n;
    } else {
      assert n > 0 && bs[n].lo == bs[n - 1].hi + 1;
      i := FindBatch(bs[..n], from, bs[n].lo, size, block);
    }
  }
}
