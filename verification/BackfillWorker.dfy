/** The job table as the store keeps it, and one turn of the backfill worker over it. */
module BackfillWorker {
  import opened Common
  import opened Records
  import opened Chain
  import opened Provider
  import Verified = Fetch
  import L = Ledger
  import Exactness
  import opened Storage
  import opened Scanning
  import Jobs = Backfill
  import Routing

  class JobStore {
    const store: Store
    var rows: map<nat, Jobs.Job>
    var audit: seq<Jobs.Entry>

    constructor (store: Store)
      ensures this.store == store && Table() == Jobs.START.jobs
    {
      this.store, rows, audit := store, map[], [];
    }

    ghost function Table(): Jobs.Jobs
      reads this
    {
      Jobs.Jobs(rows, audit)
    }

    /** Queue a job at its first block, with nothing counted. */
    method CreateBackfill(id: nat, listener: nat, from: nat, to: nat, batchSize: nat, at: int)
      returns (r: Result<(), Error>)
      modifies this`rows, this`audit
      ensures var job := Jobs.NewJob(listener, from, to, batchSize, at);
              Table() == Jobs.OrSame(old(Table()), Jobs.CreateJob(old(Table()), id, job))
      ensures r.Ok? <==>
                && to <= MAX_INT64 && id !in old(rows)
                && forall x | x in old(rows) && old(rows)[x].listener == listener ::
                     !Jobs.Unfinished(old(rows)[x].state)
      ensures r.Ok? ==>
                && rows.Keys == old(rows).Keys + {id} && (forall x | x in old(rows) :: rows[x] == old(rows)[x])
                && rows[id].listener == listener && rows[id].from == from && rows[id].to == to && rows[id].next == from
                && rows[id].batchSize == batchSize && rows[id].createdAt == at && rows[id].state == Jobs.Queued
                && rows[id].processed == 0 && rows[id].discovered == 0 && rows[id].created == 0
                && rows[id].deliveries == 0 && rows[id].duplicates == 0
                && audit == old(audit) + [Jobs.Entry(id, Jobs.Create)]
      ensures r.Err? ==> Table() == old(Table())
    {
      if to > MAX_INT64 {
        return Err(OutOfRange);
      }
      if id in rows || Jobs.Taken(rows, id, listener) {
        return Err(ActiveBackfill);
      }
      rows := rows[id := Jobs.Job(listener, from, to, batchSize, at, from, Jobs.Queued, 0, 0, 0, 0, 0)];
      audit := audit + [Jobs.Entry(id, Jobs.Create)];
      r := Ok(());
    }

    /** Pause, resume or cancel. */
    method TransitionBackfill(id: nat, to: Jobs.JobState) returns (r: Result<(), Error>)
      modifies this`rows, this`audit
      ensures id !in old(rows) ==> r == Err(NotFound) && Table() == old(Table())
      ensures id in old(rows) ==>
                && Table() == Jobs.OrSame(old(Table()), Jobs.MoveJob(old(Table()), id, old(rows)[id].state, to))
                && (r.Ok? <==> Jobs.MoveJob(old(Table()), id, old(rows)[id].state, to).Ok?)
      ensures r.Ok? <==>
                && id in old(rows)
                && (match to
                    case Paused => old(rows)[id].state == Jobs.Queued || old(rows)[id].state == Jobs.Running
                    case Queued => old(rows)[id].state == Jobs.Paused || old(rows)[id].state == Jobs.Failed
                    case Cancelled => old(rows)[id].state != Jobs.Completed && old(rows)[id].state != Jobs.Cancelled
                    case _ => false)
                && (to != Jobs.Cancelled ==>
                      forall x | x in old(rows) && x != id && old(rows)[x].listener == old(rows)[id].listener ::
                        !Jobs.Unfinished(old(rows)[x].state))
      ensures r.Ok? ==>
                && rows == old(rows)[id := old(rows)[id].(state := to)]
                && audit == old(audit) + [Jobs.Entry(id, Jobs.Enter(to))]
    {
      if id !in rows {
        return Err(NotFound);
      }
      var read := rows[id].state;
      if !Jobs.MoveAllowed(read, to) {
        return Err(BackfillState);
      }
      if Jobs.Active(to) && Jobs.Taken(rows, id, rows[id].listener) {
        return Err(ActiveBackfill);
      }
      rows := rows[id := rows[id].(state := to)];
      audit := audit + [Jobs.Entry(id, Jobs.Enter(to))];
      r := Ok(());
    }

    /** The row the claim query orders first. */
    method FirstClaimable() returns (best: Option<nat>)
      ensures best.Some? ==> Jobs.Claimable(Table(), best.value)
      ensures best.None? ==> forall id :: !Jobs.Claimable(Table(), id)
    {
      best := None;
      var todo := rows.Keys;
      while todo != {}
        invariant todo <= rows.Keys
        invariant best.Some? ==> Leads(rows, best.value, rows.Keys - todo)
        invariant best.None? ==> forall id | id in rows && id !in todo :: !Open(rows[id])
        decreases |todo|
      {
        var id :| id in todo;
        todo := todo - {id};
        if Open(rows[id]) && (best.None? || Precedes(rows[id], rows[best.value])) {
          best := Some(id);
        }
      }
    }

    method ClaimBackfill() returns (r: Option<nat>)
      modifies this`rows, this`audit
      ensures r.Some? ==> Jobs.Claimable(old(Table()), r.value) && Table() == Jobs.ClaimJob(old(Table()), r.value)
      ensures r.None? ==> Table() == old(Table()) && forall id :: !Jobs.Claimable(Table(), id)
    {
      r := FirstClaimable();
      if r.Some? && rows[r.value].state == Jobs.Queued {
        audit := audit + [Jobs.Entry(r.value, Jobs.Enter(Jobs.Running))];
        rows := rows[r.value := rows[r.value].(state := Jobs.Running)];
      }
    }

    /** The events of one batch and the job's new position commit together, or nothing does. */
    method SaveBackfillBatch(
        id: nat, events: seq<EventRow>, items: seq<NewDelivery>, next: nat, processed: nat, discovered: nat)
      returns (r: Result<L.Backfilled, Error>)
      modifies this`rows, this`audit, store`events, store`deliveries
      ensures r.Err? ==> Table() == old(Table()) && store.State() == old(store.State())
      ensures r.Ok? <==> L.BackfillAll(old(store.State()), events, items).Ok?
                         && id in old(rows) && old(rows)[id].state == Jobs.Running
      ensures r.Ok? ==>
                BatchSaved(old(rows), rows, id, old(store.State()), store.State(), events, items,
                           next, processed, discovered)
      ensures r.Ok? ==>
                && L.BackfillAll(old(store.State()), events, items) == r && store.State() == r.value.ledger
                && r.value.created + r.value.duplicates == |events|
                && Jobs.SaveJob(old(Table()), id, next, processed, CountsOf(discovered, r.value)) == Ok(Table())
    {
      var all := InsertAll(events, items);
      if all.Err? {
        return Err(all.error);
      }
      if id !in rows || rows[id].state != Jobs.Running {
        return Err(BackfillState);
      }
      var b := all.value;
      SavedIsRecorded(store.State(), events, items, b, rows[id], next, processed, discovered);
      store.events, store.deliveries := b.ledger.events, b.ledger.deliveries;
      rows := rows[id := Jobs.SavedJob(rows[id], next, processed, CountsOf(discovered, b))];
      if next == 0 {
        audit := audit + [Jobs.Entry(id, Jobs.Enter(Jobs.Completed))];
      }
      r := Ok(b);
    }

    /** The event loop of the save's transaction. */
    method InsertAll(events: seq<EventRow>, items: seq<NewDelivery>) returns (r: Result<L.Backfilled, Error>)
      ensures r.Ok? ==> L.BackfillAll(store.State(), events, items) == r
      ensures r.Err? ==> L.BackfillAll(store.State(), events, items).Err?
    {
      var b := L.Backfilled(L.Ledger(store.checkpoint, store.canonical, store.events, store.deliveries), 0, 0, 0);
      for i := 0 to |events|
        invariant L.BackfillAll(store.State(), events[..i], items) == Ok(b)
      {
        assert events[..i + 1][..i] == events[..i];
        var one := L.BackfillOne(b, events[i], items);
        if one.Err? {
          BackfillFailsLater(store.State(), events, items, i + 1);
          return Err(one.error);
        }
        b := one.value;
      }
      assert events[..|events|] == events;
      r := Ok(b);
    }

    method FailBackfill(id: nat)
      modifies this`rows, this`audit
      ensures Table() == Jobs.FailJob(old(Table()), id)
    {
      if id in rows && rows[id].state == Jobs.Running {
        rows := rows[id := rows[id].(state := Jobs.Failed)];
        audit := audit + [Jobs.Entry(id, Jobs.Enter(Jobs.Failed))];
      }
    }
  }

  ghost predicate OnlyRowChanged(rows: map<nat, Jobs.Job>, rows': map<nat, Jobs.Job>, id: nat) {
    id in rows && rows'.Keys == rows.Keys && forall x | x in rows && x != id :: rows'[x] == rows[x]
  }

  /** The job's row records the batch, the other jobs stand, and the outbox gained fresh rows only. */
  ghost predicate BatchSaved(
      rows: map<nat, Jobs.Job>, rows': map<nat, Jobs.Job>, id: nat, l: L.Ledger, l': L.Ledger,
      events: seq<EventRow>, items: seq<NewDelivery>, next: nat, processed: nat, discovered: nat)
  {
    match l'
    case Ledger(_, _, table, _) =>
      && OnlyRowChanged(rows, rows', id)
      && Recorded(rows[id], rows'[id], events, items, next, processed, discovered, table.Keys - l.events.Keys)
      && NewRowsAreFresh(l, l', items)
  }

  /** What a saved batch leaves in the job row: created counts the identities the store gained, duplicates the rest. */
  predicate Recorded(
      job: Jobs.Job, job': Jobs.Job, events: seq<EventRow>, items: seq<NewDelivery>, next: nat, processed: nat,
      discovered: nat, gained: set<EventId>)
  {
    && job'.created == job.created + |gained| && job'.duplicates == job.duplicates + |events| - |gained|
    && job'.deliveries == job.deliveries + Routing.ItemsOf(items, gained)
    && job'.discovered == job.discovered + discovered && job'.processed == job.processed + processed
    && job'.next == (if next == 0 then job.to + 1 else next)
    && job'.state == (if next == 0 then Jobs.Completed else Jobs.Running)
    && job'.listener == job.listener && job'.from == job.from && job'.to == job.to
    && job'.batchSize == job.batchSize && job'.createdAt == job.createdAt
  }

  /** Every outbox row that was added is fresh, for a given item of a gained event; the others stand. */
  ghost predicate NewRowsAreFresh(l: L.Ledger, l': L.Ledger, items: seq<NewDelivery>) {
    match l'
    case Ledger(_, _, events, rows) =>
      L.NoOrphanRows(l) ==>
        && (forall k | k in l.deliveries :: k in rows && rows[k] == l.deliveries[k])
        && (forall k | k in rows && k !in l.deliveries ::
              && k.event in events && k.event !in l.events
              && exists d :: d in items && L.Addresses(d, k) && L.FreshRow(d, rows[k]))
  }

  lemma BackfillRowsAreFresh(l: L.Ledger, rows: seq<EventRow>, items: seq<NewDelivery>)
    requires L.BackfillAll(l, rows, items).Ok?
    ensures NewRowsAreFresh(l, L.BackfillAll(l, rows, items).value.ledger, items)
  {
    if L.NoOrphanRows(l) {
      forall k { Routing.BackfillAddsDeliveries(l, rows, items, k); }
    }
  }

  lemma SavedIsRecorded(
      l: L.Ledger, events: seq<EventRow>, items: seq<NewDelivery>, b: L.Backfilled, job: Jobs.Job, next: nat,
      processed: nat, discovered: nat)
    requires L.BackfillAll(l, events, items) == Ok(b)
    ensures b.ledger.checkpoint == l.checkpoint && b.ledger.canonical == l.canonical
    ensures b.created + b.duplicates == |events|
    ensures Recorded(job, Jobs.SavedJob(job, next, processed, CountsOf(discovered, b)), events, items, next, processed,
                     discovered, b.ledger.events.Keys - l.events.Keys)
    ensures NewRowsAreFresh(l, b.ledger, items)
  {
    Routing.BackfillStoresEvents(l, events, items);
    Routing.BackfillCountsCreated(l, events, items);
    Routing.BackfillCountsDeliveries(l, events, items);
    BackfillRowsAreFresh(l, events, items);
  }

  function CountsOf(discovered: nat, b: L.Backfilled): Jobs.Counts {
    Jobs.Counts(discovered, b.created, b.deliveries, b.duplicates)
  }

  predicate Open(job: Jobs.Job) {
    job.state == Jobs.Queued || job.state == Jobs.Running
  }

  /** ORDER BY CASE state WHEN 'running' THEN 0 ELSE 1 END, created_at */
  predicate Precedes(a: Jobs.Job, b: Jobs.Job) {
    || (a.state == Jobs.Running && b.state == Jobs.Queued)
    || (a.state == b.state && a.createdAt <= b.createdAt)
  }

  ghost predicate Leads(rows: map<nat, Jobs.Job>, id: nat, seen: set<nat>) {
    && id in rows && Open(rows[id])
    && forall other | other in seen && other in rows && Open(rows[other]) :: Precedes(rows[id], rows[other])
  }

  lemma {:induction false} BackfillFailsLater(l: L.Ledger, rows: seq<EventRow>, items: seq<NewDelivery>, n: nat)
    requires n <= |rows| && L.BackfillAll(l, rows[..n], items).Err?
    ensures L.BackfillAll(l, rows, items).Err?
    decreases |rows|
  {
    if n == |rows| {
      assert rows[..n] == rows;
    } else {
      var m := |rows| - 1;
      assert rows[..m][..n] == rows[..n];
      BackfillFailsLater(l, rows[..m], items, n);
    }
  }

  /** The backfill's decoding: an event without a route is stored without deliveries. */
  method DecodeRange(d: Decoder, logs: seq<RawLog>, now: int) returns (r: Result<L.Prepared, Error>)
    ensures r.Ok? <==> forall log | log in logs :: !d.decode(log).Undecodable?
    ensures r.Ok? ==>
              && (forall e :: EventRow(e, now) in r.value.rows <==>
                    exists log :: log in logs && d.decode(log) == DecodedAs(e))
              && (forall row | row in r.value.rows :: row.observedAt == now)
              && (forall x :: x in r.value.deliveries <==> Routing.Proposed(d, r.value.rows, now, x))
  {
    var rows: seq<EventRow> := [];
    var items: seq<NewDelivery> := [];
    for i := 0 to |logs|
      invariant forall log | log in logs[..i] :: !d.decode(log).Undecodable?
      invariant forall e :: EventRow(e, now) in rows <==>
                  exists log :: log in logs[..i] && d.decode(log) == DecodedAs(e)
      invariant forall row | row in rows :: row.observedAt == now
      invariant forall x :: x in items <==> Routing.Proposed(d, rows, now, x)
    {
      assert logs[..i + 1] == logs[..i] + [logs[i]];
      var decoded := d.decode(logs[i]);
      if decoded.Undecodable? {
        return Err(DecodeFailure);
      }
      if decoded.DecodedAs? {
        var destinations := d.route(decoded.event);
        ProposedSnoc(d, L.Prepared(rows, items), decoded.event, now);
        if destinations.Some? {
          items := items + L.NewDeliveries(decoded.event, destinations.value, now);
        }
        rows := rows + [EventRow(decoded.event, now)];
      }
    }
    assert logs[..|logs|] == logs;
    r := Ok(L.Prepared(rows, items));
  }

  /** One more event proposes its own routes, if it has any, and no others. */
  lemma ProposedSnoc(d: Decoder, before: L.Prepared, e: Event, now: int)
    requires forall x :: x in before.deliveries <==> Routing.Proposed(d, before.rows, now, x)
    ensures var more := if d.route(e).Some? then L.NewDeliveries(e, d.route(e).value, now) else [];
            forall x :: x in before.deliveries + more <==> Routing.Proposed(d, before.rows + [EventRow(e, now)], now, x)
  {
    var rows := before.rows + [EventRow(e, now)];
    var more := if d.route(e).Some? then L.NewDeliveries(e, d.route(e).value, now) else [];
    forall x ensures x in before.deliveries + more <==> Routing.Proposed(d, rows, now, x) {
      if d.route(e).Some? {
        Routing.PreparedSnoc(d, before, e, now, x);
      }
    }
  }

  /** The steps lead the machine from one table, with the worker idle, to the other. */
  ghost predicate Reached(m: Jobs.Machine, steps: seq<Jobs.Step>, m': Jobs.Machine) {
    && Jobs.Progress(m) && Jobs.Run(m, steps) && Jobs.After(m, steps) == m' && Jobs.Progress(m')
  }

  lemma OneMore(m: Jobs.Machine, steps: seq<Jobs.Step>, m': Jobs.Machine, s: Jobs.Step)
    requires Reached(m, steps, m') && Jobs.Enabled(m', s)
    ensures Reached(m, steps + [s], Jobs.Apply(m', s))
  {
    Jobs.RunSnoc(m, steps, s);
    Jobs.StepKeepsProgress(m', s);
  }

  /**
   What a job's captured snapshot yields: nothing when it cannot be opened, decoded or dialled; a scanner that
   cannot be built; or a scanner with this configuration.
   */
  datatype Setup = Broken | Unbuildable | Ready(config: Exactness.Config)

  class Worker {
    const jobs: JobStore
    const rpc: Rpc
    const setup: nat -> Setup

    constructor (jobs: JobStore, rpc: Rpc, setup: nat -> Setup)
      ensures this.jobs == jobs && this.rpc == rpc && this.setup == setup
    {
      this.jobs, this.rpc, this.setup := jobs, rpc, setup;
    }

    /** One turn: claim a job, fetch and decode its next batch, and commit it or fail the job. */
    method RunOne(t: nat, now: int, cancelled: bool, ghost m: Jobs.Machine)
      returns (ghost steps: seq<Jobs.Step>, ghost m': Jobs.Machine, ghost p: L.Prepared)
      requires m.jobs == jobs.Table() && m.worker.None? && Jobs.Progress(m)
      requires forall id | id in jobs.rows && setup(id).Ready? ::
                 setup(id).config.options.batchSize == jobs.rows[id].batchSize
      modifies jobs`rows, jobs`audit, jobs.store`events, jobs.store`deliveries
      ensures Reached(m, steps, m') && m'.jobs == jobs.Table() && m'.worker.None?
      ensures steps == [] <==> forall id :: !Jobs.Claimable(m.jobs, id)
      ensures steps != [] ==>
                && |steps| == 2 && steps[0].Claim? && Jobs.Claimable(m.jobs, steps[0].id)
                && WorkedOn(steps[0].id, m.jobs.rows[steps[0].id].(state := Jobs.Running), steps[1], t, now, cancelled,
                            old(jobs.store.State()), jobs.store.State(), p)
      ensures steps == [] ==> jobs.store.State() == old(jobs.store.State())
    {
      steps, m', p := [], m, L.Prepared([], []);
      var id := jobs.ClaimBackfill();
      if id.None? {
        return;
      }
      ghost var claim := Jobs.Claim(id.value);
      m' := ClaimReached(m, id.value);
      ghost var step;
      step, m', p := WorkOn(id.value, t, now, cancelled, m, [claim], m');
      steps := [claim] + [step];
    }

    /** Fetch, decode and commit the next batch of a claimed job. */
    method WorkOn(
        id: nat, t: nat, now: int, cancelled: bool, ghost m: Jobs.Machine, ghost before: seq<Jobs.Step>,
        ghost claimed: Jobs.Machine)
      returns (ghost step: Jobs.Step, ghost m': Jobs.Machine, ghost p: L.Prepared)
      requires Reached(m, before, claimed) && claimed.jobs == jobs.Table()
      requires id in jobs.rows && jobs.rows[id].state == Jobs.Running
      requires claimed.worker == Some(Jobs.Held(id, jobs.rows[id].next))
      requires setup(id).Ready? ==> setup(id).config.options.batchSize == jobs.rows[id].batchSize
      modifies jobs`rows, jobs`audit, jobs.store`events, jobs.store`deliveries
      ensures Reached(m, before + [step], m') && m'.jobs == jobs.Table() && m'.worker.None?
      ensures WorkedOn(id, old(jobs.rows)[id], step, t, now, cancelled, old(jobs.store.State()), jobs.store.State(), p)
    {
      p := L.Prepared([], []);
      var job := jobs.rows[id];
      var config := setup(id);
      Jobs.WorkerRangeFits(claimed);
      var to := BatchEnd(job.next, job.batchSize, job.to);
      if config.Broken? {
        step, m' := FailReached(m, before, claimed, id);
        jobs.FailBackfill(id);
        return;
      }
      if config.Unbuildable? || cancelled {
        step, m' := AbandonReached(m, before, claimed);
        return;
      }
      var scanner := new Scanner(rpc, config.config, jobs.store);
      var fetched := Fetch(scanner, job.next, to, t, now);
      if fetched.Err? {
        step, m' := FailReached(m, before, claimed, id);
        jobs.FailBackfill(id);
        return;
      }
      p := fetched.value;
      var saved := Commit(id, job, to, fetched.value);
      if saved.Err? {
        step, m' := FailReached(m, before, claimed, id);
      } else {
        step, m' := SaveReached(m, before, claimed, id, job, to, CountsOf(|p.rows|, saved.value), jobs.Table());
      }
    }

    /**
     A claimed job's batch was saved with its events; or the job failed for a reason, or was left running because
     no scanner could be built or the service was cancelled, and then nothing was stored.
     */
    ghost predicate WorkedOn(
        id: nat, job: Jobs.Job, step: Jobs.Step, t: nat, now: int, cancelled: bool,
        l: L.Ledger, l': L.Ledger, p: L.Prepared)
    {
      && job.next <= job.to <= MAX_INT64 && 1 <= job.batchSize <= MAX_INT64
      && var to := BatchEnd(job.next, job.batchSize, job.to);
      match step
      case Save(c) =>
        && setup(id).Ready? && !cancelled && Turned(setup(id).config, job.next, to, t, now, l, l', p)
        && Counted(c, l, p)
      case Fail =>
        && l' == l && !setup(id).Unbuildable?
        && (setup(id).Ready? ==> !cancelled && TurnFails(setup(id).config, job.next, to, t, now, l, p))
      case Abandon => l' == l && (setup(id).Unbuildable? || (setup(id).Ready? && cancelled))
      case _ => false
    }

    /** The range can be fetched, and every log in it decodes. */
    ghost predicate Readable(c: Exactness.Config, from: nat, to: nat, t: nat) {
      && from <= to && to - from + 1 <= c.options.batchSize && rpc.chainMatches(t)
      && Verified.Accepts(rpc, c.options.filter, t + 1, from, to, None)
      && forall log | log in rpc.logs(t + 3, from, to).value :: !c.decoder.decode(RawOf(log)).Undecodable?
    }

    /** The rows are exactly the configured events of the range, and the deliveries exactly their routes. */
    ghost predicate DecodedFrom(c: Exactness.Config, from: nat, to: nat, t: nat, now: int, p: L.Prepared) {
      && Readable(c, from, to, t)
      && (forall e :: EventRow(e, now) in p.rows <==>
            exists log :: log in rpc.logs(t + 3, from, to).value && c.decoder.decode(RawOf(log)) == DecodedAs(e))
      && (forall x :: x in p.deliveries <==> Routing.Proposed(c.decoder, p.rows, now, x))
    }

    /** The ledger gained exactly this batch. */
    ghost predicate Turned(
        c: Exactness.Config, from: nat, to: nat, t: nat, now: int, l: L.Ledger, l': L.Ledger, p: L.Prepared)
    {
      && DecodedFrom(c, from, to, t, now, p)
      && L.BackfillAll(l, p.rows, p.deliveries).Ok? && l' == L.BackfillAll(l, p.rows, p.deliveries).value.ledger
    }

    /** The counts are those of this batch. */
    ghost predicate Counted(c: Jobs.Counts, l: L.Ledger, p: L.Prepared)
      requires L.BackfillAll(l, p.rows, p.deliveries).Ok?
    {
      var b := L.BackfillAll(l, p.rows, p.deliveries).value;
      && c.discovered == |p.rows| && c.created == b.created && c.duplicates == b.duplicates
      && c.deliveries == b.deliveries
    }

    /** The range could not be read, or the store refused what was read. */
    ghost predicate TurnFails(
        c: Exactness.Config, from: nat, to: nat, t: nat, now: int, l: L.Ledger, p: L.Prepared)
    {
      || !Readable(c, from, to, t)
      || (DecodedFrom(c, from, to, t, now, p) && L.BackfillAll(l, p.rows, p.deliveries).Err?)
    }

    method Fetch(scanner: Scanner, from: nat, to: nat, t: nat, now: int) returns (r: Result<L.Prepared, Error>)
      requires from <= to <= MAX_INT64 && scanner.rpc == rpc
      ensures r.Ok? <==> Readable(scanner.config, from, to, t)
      ensures r.Ok? ==> DecodedFrom(scanner.config, from, to, t, now, r.value)
    {
      var logs := scanner.FetchRange(from, to, t);
      if logs.Err? {
        return Err(logs.error);
      }
      SameDecoding(scanner.config.decoder, rpc.logs(t + 3, from, to).value, logs.value);
      r := DecodeRange(scanner.config.decoder, logs.value, now);
    }

    method Commit(id: nat, job: Jobs.Job, to: nat, p: L.Prepared) returns (r: Result<L.Backfilled, Error>)
      requires job.next <= to && id in jobs.rows && jobs.rows[id].state == Jobs.Running
      modifies jobs`rows, jobs`audit, jobs.store`events, jobs.store`deliveries
      ensures r.Ok? ==> L.BackfillAll(old(jobs.store.State()), p.rows, p.deliveries) == r
      ensures r.Err? ==> L.BackfillAll(old(jobs.store.State()), p.rows, p.deliveries).Err?
      ensures r.Err? ==>
                jobs.Table() == Jobs.FailJob(old(jobs.Table()), id) && jobs.store.State() == old(jobs.store.State())
      ensures r.Ok? ==>
                && r.value.created + r.value.duplicates == |p.rows| && jobs.store.State() == r.value.ledger
                && Jobs.SaveJob(old(jobs.Table()), id, Jobs.NextFor(job, to), to - job.next + 1,
                                CountsOf(|p.rows|, r.value)) == Ok(jobs.Table())
    {
      var next := if to == job.to then 0 else to + 1;
      r := jobs.SaveBackfillBatch(id, p.rows, p.deliveries, next, to - job.next + 1, |p.rows|);
      if r.Err? {
        jobs.FailBackfill(id);
      }
    }
  }

  /** The deduplicated logs decode to the same events as the reply. */
  lemma SameDecoding(d: Decoder, reply: seq<Log>, raw: seq<RawLog>)
    requires Verified.IsDeduplicated(reply, raw)
    ensures (forall r | r in raw :: !d.decode(r).Undecodable?) <==>
            forall log | log in reply :: !d.decode(RawOf(log)).Undecodable?
    ensures forall e :: (exists r :: r in raw && d.decode(r) == DecodedAs(e)) <==>
                        exists log :: log in reply && d.decode(RawOf(log)) == DecodedAs(e)
  {
    forall e ensures (exists r :: r in raw && d.decode(r) == DecodedAs(e)) <==>
                     exists log :: log in reply && d.decode(RawOf(log)) == DecodedAs(e)
    {
      if exists r :: r in raw && d.decode(r) == DecodedAs(e) {
        var r :| r in raw && d.decode(r) == DecodedAs(e);
        var log :| log in reply && RawOf(log) == r;
      }
      if exists log :: log in reply && d.decode(RawOf(log)) == DecodedAs(e) {
        var log :| log in reply && d.decode(RawOf(log)) == DecodedAs(e);
        assert RawOf(log) in raw;
      }
    }
  }

  lemma ClaimReached(m: Jobs.Machine, id: nat) returns (m': Jobs.Machine)
    requires Jobs.Progress(m) && m.worker.None? && Jobs.Claimable(m.jobs, id)
    ensures Reached(m, [Jobs.Claim(id)], m') && m'.jobs == Jobs.ClaimJob(m.jobs, id)
    ensures m'.worker == Some(Jobs.Held(id, m.jobs.rows[id].next))
    ensures id in m'.jobs.rows && m'.jobs.rows[id] == m.jobs.rows[id].(state := Jobs.Running)
  {
    OneMore(m, [], m, Jobs.Claim(id));
    m' := Jobs.Apply(m, Jobs.Claim(id));
    assert [] + [Jobs.Claim(id)] == [Jobs.Claim(id)];
  }

  lemma FailReached(m: Jobs.Machine, before: seq<Jobs.Step>, claimed: Jobs.Machine, id: nat)
    returns (step: Jobs.Step, m': Jobs.Machine)
    requires Reached(m, before, claimed) && claimed.worker.Some? && claimed.worker.value.id == id
    ensures step.Fail? && Reached(m, before + [step], m')
    ensures m'.jobs == Jobs.FailJob(claimed.jobs, id) && m'.worker.None?
  {
    OneMore(m, before, claimed, Jobs.Fail);
    step, m' := Jobs.Fail, Jobs.Apply(claimed, Jobs.Fail);
  }

  lemma AbandonReached(m: Jobs.Machine, before: seq<Jobs.Step>, claimed: Jobs.Machine)
    returns (step: Jobs.Step, m': Jobs.Machine)
    requires Reached(m, before, claimed) && claimed.worker.Some?
    ensures step.Abandon? && Reached(m, before + [step], m')
    ensures m'.jobs == claimed.jobs && m'.worker.None?
  {
    OneMore(m, before, claimed, Jobs.Abandon);
    step, m' := Jobs.Abandon, Jobs.Apply(claimed, Jobs.Abandon);
  }

  lemma SaveReached(
      m: Jobs.Machine, before: seq<Jobs.Step>, claimed: Jobs.Machine, id: nat, job: Jobs.Job, to: nat,
      c: Jobs.Counts, table: Jobs.Jobs)
    returns (step: Jobs.Step, m': Jobs.Machine)
    requires Reached(m, before, claimed) && claimed.worker == Some(Jobs.Held(id, job.next))
    requires id in claimed.jobs.rows && job == claimed.jobs.rows[id] && job.next <= job.to <= MAX_INT64
    requires 1 <= job.batchSize <= MAX_INT64 && to == Jobs.BatchTo(job, job.next) && job.next <= to
    requires c.discovered == c.created + c.duplicates
    requires Jobs.SaveJob(claimed.jobs, id, Jobs.NextFor(job, to), to - job.next + 1, c) == Ok(table)
    ensures step == Jobs.Save(c) && Reached(m, before + [step], m') && m'.jobs == table && m'.worker.None?
  {
    Jobs.SaveCommits(claimed, c, table);
    OneMore(m, before, claimed, Jobs.Save(c));
    step, m' := Jobs.Save(c), Jobs.Apply(claimed, Jobs.Save(c));
  }
}
