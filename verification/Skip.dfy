/**
 Operator skips against live reconciliation: configuration mutations, the reconcile passes of the
 runtime manager, scanner exits, restarts and skip requests, interleaved step by step.
 */
module SkipProtocol {
  import opened Common

  /** Which listeners exist, and which of them are paused. */
  type Configuration = map<nat, bool>

  datatype Phase = Idle | Working(todo: set<nat>)

  datatype Published = Published(revision: nat, paused: set<nat>)

  /** A skip request whose `stopped` test has passed. */
  datatype Request = Request(listener: nat, revision: nat)

  /** `history[r]` is the configuration at revision r; `latest` the revision the manager read last. */
  datatype Protocol = Protocol(
    history: seq<Configuration>, latest: Option<nat>, phase: Phase, active: set<nat>,
    status: Option<Published>, requests: set<Request>)
  {
    function Revision(): int { |history| - 1 }
  }

  const START := Protocol([map[]], None, Idle, {}, None, {})

  datatype Step =
    | Mutate(expected: nat, configuration: Configuration)
    | Read
    | Visit(id: nat, runs: bool)
    | Publish
    | Abort
    | Exit(id: nat)
    | Restart
    | Check(id: nat, revision: nat)
    | Skip(id: nat, revision: nat)

  predicate PausedIn(c: Configuration, id: nat) {
    id in c && c[id]
  }

  /** Not to be run under this configuration. */
  predicate Unwanted(c: Configuration, id: nat) {
    id in c ==> c[id]
  }

  /** The `stopped` test: the status is of exactly this revision and shows the listener paused. */
  predicate Stopped(p: Protocol, id: nat, revision: nat) {
    p.status.Some? && p.status.value.revision == revision && id in p.status.value.paused
  }

  predicate Enabled(p: Protocol, s: Step) {
    match s
    case Read => p.phase.Idle?
    case Visit(id, _) => p.phase.Working? && id in p.phase.todo
    case Publish => p.phase == Working({})
    case Check(id, revision) => Stopped(p, id, revision)
    case Skip(id, revision) => Request(id, revision) in p.requests
    case _ => true
  }

  /** The transaction re-reads the revision and the paused flag. */
  predicate SkipCommits(p: Protocol, id: nat, revision: nat)
    requires p.history != []
  {
    revision == p.Revision() && PausedIn(p.history[|p.history| - 1], id)
  }

  function Apply(p: Protocol, s: Step): Protocol
    requires Inv(p) && Enabled(p, s)
  {
    var current := p.history[|p.history| - 1];
    match s
    case Mutate(expected, configuration) =>
      if expected == p.Revision() then p.(history := p.history + [configuration]) else p
    case Read => p.(latest := Some(p.Revision()), phase := Working(current.Keys + p.active))
    case Visit(id, runs) =>
      var wanted := !Unwanted(p.history[p.latest.value], id);
      p.(phase := Working(p.phase.todo - {id}),
         active := if !wanted then p.active - {id} else if runs then p.active + {id} else p.active)
    case Publish =>
      var c := p.history[p.latest.value];
      p.(phase := Idle, status := Some(Published(p.latest.value, set id | id in c && c[id])))
    case Abort => p.(phase := Idle)
    case Exit(id) => p.(active := p.active - {id})
    case Restart => p.(latest := None, phase := Idle, active := {}, status := None, requests := {})
    case Check(id, revision) => p.(requests := p.requests + {Request(id, revision)})
    case Skip(id, revision) =>
      if SkipCommits(p, id, revision) then p.(history := p.history + [current[id := false]]) else p
  }

  // -------------------------------------------------------------- invariant

  /** Reads follow the store, the status follows the reads. */
  predicate Ordered(p: Protocol) {
    && p.history != []
    && (p.latest.Some? ==> p.latest.value <= p.Revision())
    && (p.status.Some? ==> p.latest.Some? && p.status.value.revision <= p.latest.value)
    && (p.phase.Working? ==> p.latest.Some?)
  }

  /** The pass in progress has taken down whatever it has visited and does not want. */
  ghost predicate PassIsClean(p: Protocol)
    requires Ordered(p)
  {
    p.phase.Working? ==>
      forall id | id in p.active && id !in p.phase.todo :: !Unwanted(p.history[p.latest.value], id)
  }

  /** While nothing newer was read than what the status shows, what it shows as paused does not run. */
  ghost predicate StatusIsTrue(p: Protocol)
    requires Ordered(p)
  {
    p.status.Some? && p.latest.value == p.status.value.revision ==>
      forall id | id in p.status.value.paused :: id !in p.active && PausedIn(p.history[p.latest.value], id)
  }

  /** A request that passed its test did so on a status no newer than today's. */
  ghost predicate RequestsAreOld(p: Protocol)
    requires Ordered(p)
  {
    forall r | r in p.requests ::
      && p.status.Some? && r.revision <= p.status.value.revision
      && (r.revision == p.status.value.revision ==> r.listener in p.status.value.paused)
  }

  ghost predicate Inv(p: Protocol) {
    Ordered(p) && PassIsClean(p) && StatusIsTrue(p) && RequestsAreOld(p)
  }

  lemma StartHolds()
    ensures Inv(START)
  {
  }

  lemma StepKeepsInv(p: Protocol, s: Step)
    requires Inv(p) && Enabled(p, s)
    ensures Inv(Apply(p, s))
  {
  }

  /** The heart of it: a skip that commits finds its listener stopped. */
  lemma CommitFindsStopped(p: Protocol, id: nat, revision: nat)
    requires Inv(p) && Request(id, revision) in p.requests && SkipCommits(p, id, revision)
    ensures id !in p.active
  {
  }

  // ------------------------------------------------------------- whole runs

  ghost predicate Run(p: Protocol, steps: seq<Step>)
    requires Inv(p)
    decreases |steps|
  {
    steps == [] || (Enabled(p, steps[0]) && (StepKeepsInv(p, steps[0]); Run(Apply(p, steps[0]), steps[1..])))
  }

  ghost function After(p: Protocol, steps: seq<Step>): Protocol
    requires Inv(p) && Run(p, steps)
    decreases |steps|
  {
    if steps == [] then p else (StepKeepsInv(p, steps[0]); After(Apply(p, steps[0]), steps[1..]))
  }

  /** The step is a mutation prepared at this revision, a skip or another one, and it commits. */
  predicate Commits(p: Protocol, s: Step, revision: nat)
    requires p.history != []
  {
    || (s.Mutate? && s.expected == revision == p.Revision())
    || (s.Skip? && s.revision == revision && SkipCommits(p, s.id, s.revision))
  }

  /** Every skip that commits anywhere in the run finds its listener stopped. */
  ghost predicate NeverRaces(p: Protocol, steps: seq<Step>)
    requires Inv(p) && Run(p, steps)
    decreases |steps|
  {
    steps == [] ||
    (&& (steps[0].Skip? && SkipCommits(p, steps[0].id, steps[0].revision) ==> steps[0].id !in p.active)
     && (StepKeepsInv(p, steps[0]); NeverRaces(Apply(p, steps[0]), steps[1..])))
  }

  /** Over every interleaving, no scanner of a listener runs when its skip commits. */
  lemma {:induction false} SkipsNeverRace(p: Protocol, steps: seq<Step>)
    requires Inv(p) && Run(p, steps)
    ensures NeverRaces(p, steps)
    decreases |steps|
  {
    if steps != [] {
      StepKeepsInv(p, steps[0]);
      if steps[0].Skip? && SkipCommits(p, steps[0].id, steps[0].revision) {
        CommitFindsStopped(p, steps[0].id, steps[0].revision);
      }
      SkipsNeverRace(Apply(p, steps[0]), steps[1..]);
    }
  }

  /** How many mutations and skips prepared at this revision commit in the run. */
  ghost function CommitCount(p: Protocol, steps: seq<Step>, revision: nat): nat
    requires Inv(p) && Run(p, steps)
    decreases |steps|
  {
    if steps == [] then 0
    else
      StepKeepsInv(p, steps[0]);
      (if Commits(p, steps[0], revision) then 1 else 0) + CommitCount(Apply(p, steps[0]), steps[1..], revision)
  }

  lemma {:induction false} PassedRevisionsNeverCommit(p: Protocol, steps: seq<Step>, revision: nat)
    requires Inv(p) && Run(p, steps) && revision < p.Revision()
    ensures CommitCount(p, steps, revision) == 0
    decreases |steps|
  {
    if steps != [] {
      StepKeepsInv(p, steps[0]);
      PassedRevisionsNeverCommit(Apply(p, steps[0]), steps[1..], revision);
    }
  }

  /**
   Of all mutations prepared at one revision at most one commits, because a commit moves the revision;
   so each preview commits at most once.
   */
  lemma {:induction false} OneCommitPerRevision(p: Protocol, steps: seq<Step>, revision: nat)
    requires Inv(p) && Run(p, steps)
    ensures CommitCount(p, steps, revision) <= 1
    decreases |steps|
  {
    if steps != [] {
      StepKeepsInv(p, steps[0]);
      if Commits(p, steps[0], revision) {
        PassedRevisionsNeverCommit(Apply(p, steps[0]), steps[1..], revision);
      } else {
        OneCommitPerRevision(Apply(p, steps[0]), steps[1..], revision);
      }
    }
  }
}

/** The listener table with its revision, and the skip transaction. */
module SkipStore {
  import opened Common
  import opened Chain
  import opened Records
  import L = Ledger
  import opened Storage
  import Jobs = Backfill
  import opened BackfillWorker
  import P = SkipProtocol

  datatype ListenerRow = ListenerRow(start: nat, depth: nat, paused: bool)

  datatype SkipAudit = SkipAudit(
    listener: nat, previous: Option<Checkpoint>, from: nat, to: nat, hash: nat, revision: nat)

  // ------------------------------------------------------- the protocol's view

  function ConfigurationOf(listeners: map<nat, ListenerRow>): P.Configuration {
    map id | id in listeners :: listeners[id].paused
  }

  /** The protocol state has this table at this revision. */
  ghost predicate Mirrors(p: P.Protocol, revision: nat, listeners: map<nat, ListenerRow>) {
    && p.history != [] && p.Revision() == revision
    && p.history[|p.history| - 1] == ConfigurationOf(listeners)
  }

  lemma MutationIsStep(
      p: P.Protocol, revision: nat, listeners: map<nat, ListenerRow>, changed: map<nat, ListenerRow>)
    requires P.Inv(p) && Mirrors(p, revision, listeners)
    ensures Mirrors(P.Apply(p, P.Mutate(revision, ConfigurationOf(changed))), revision + 1, changed)
  {
  }

  lemma SkipIsStep(p: P.Protocol, revision: nat, listeners: map<nat, ListenerRow>, id: nat)
    requires P.Inv(p) && Mirrors(p, revision, listeners) && P.Request(id, revision) in p.requests
    requires id in listeners && listeners[id].paused
    ensures P.SkipCommits(p, id, revision) && id !in p.active
    ensures Mirrors(P.Apply(p, P.Skip(id, revision)), revision + 1, listeners[id := listeners[id].(paused := false)])
  {
    P.CommitFindsStopped(p, id, revision);
    var resumed := listeners[id := listeners[id].(paused := false)];
    assert ConfigurationOf(resumed) == ConfigurationOf(listeners)[id := false];
  }

  class Registry {
    const store: Store
    const jobs: JobStore
    var revision: nat
    var listeners: map<nat, ListenerRow>
    var skips: seq<SkipAudit>

    constructor (store: Store, jobs: JobStore)
      ensures this.store == store && this.jobs == jobs && revision == 0 && listeners == map[] && skips == []
    {
      this.store, this.jobs, revision, listeners, skips := store, jobs, 0, map[], [];
    }

    /** Any other mutation of the table, prepared at `expected`: its own statements may fail. */
    method Mutate(expected: nat, changed: Result<map<nat, ListenerRow>, Error>) returns (r: Result<nat, Error>)
      modifies this`revision, this`listeners
      ensures if old(revision) == expected <= MAX_INT64 && changed.Ok?
              then r == Ok(revision) && revision == old(revision) + 1 && listeners == changed.value
              else r.Err? && revision == old(revision) && listeners == old(listeners)
      ensures forall p | P.Inv(p) && Mirrors(p, old(revision), old(listeners)) :: r.Ok? ==>
                Mirrors(P.Apply(p, P.Mutate(expected, ConfigurationOf(listeners))), revision, listeners)
    {
      if expected > MAX_INT64 {
        return Err(OutOfRange);
      }
      if revision != expected {
        return Err(RevisionConflict);
      }
      if changed.Err? {
        return Err(changed.error);
      }
      forall p | P.Inv(p) && Mirrors(p, revision, listeners)
        ensures Mirrors(P.Apply(p, P.Mutate(expected, ConfigurationOf(changed.value))), revision + 1, changed.value)
      {
        MutationIsStep(p, revision, listeners, changed.value);
      }
      listeners := changed.value;
      revision := revision + 1;
      r := Ok(revision);
    }

    /** The operator's view is current, nothing else is at work, and the target is a newer block. */
    ghost predicate Skippable(id: nat, expected: nat, previous: Option<Checkpoint>, target: CanonicalBlock)
      reads this, store, jobs
    {
      && revision == expected <= MAX_INT64
      && id in listeners && listeners[id].paused
      && (forall j | j in jobs.rows :: !Jobs.Unfinished(jobs.rows[j].state))
      && previous == store.checkpoint
      && (previous.Some? ==> previous.value.number < target.number)
      && listeners[id].start <= target.number < MAX_INT64
      && target.hash != ZERO_HASH && (target.number > 0 ==> target.parent != ZERO_HASH)
      && (forall e | e in store.events && store.events[e].event.blockNumber == target.number ::
            store.events[e].event.blockHash == target.hash)
      && (forall n | n in store.canonical && store.canonical[n].hash == target.hash :: n == target.number)
    }

    /** Move the checkpoint forward and enable the listener in one transaction; or change nothing. */
    method SkipScannerToHead(id: nat, expected: nat, previous: Option<Checkpoint>, target: CanonicalBlock)
      returns (r: Result<SkipAudit, Error>)
      modifies this`revision, this`listeners, this`skips, store`checkpoint, store`canonical
      ensures r.Ok? <==> old(Skippable(id, expected, previous, target))
      ensures r.Err? ==> revision == old(revision) && listeners == old(listeners) && skips == old(skips)
                         && store.State() == old(store.State())
      ensures r.Ok? ==>
                && revision == old(revision) + 1
                && listeners == old(listeners)[id := old(listeners)[id].(paused := false)]
                && store.checkpoint == Some(Checkpoint(target.number, target.hash))
                && (forall n :: n in store.canonical <==>
                      (n in old(store.canonical) || n == target.number)
                      && target.number <= n + old(listeners)[id].depth)
                && (forall n | n in store.canonical ::
                      store.canonical[n] == if n == target.number then target else old(store.canonical)[n])
                && L.SkipTo(old(store.State()), old(listeners)[id].start, old(listeners)[id].depth, previous, target)
                   == Ok(store.State())
                && skips == old(skips) + [r.value]
                && r.value.listener == id && r.value.hash == target.hash
                && r.value.previous == old(store.checkpoint)
                && r.value.to == target.number && r.value.revision == revision
                && r.value.from == (match old(store.checkpoint)
                                    case None => old(listeners)[id].start case Some(cp) => cp.number + 1)
                && r.value.from <= r.value.to
      ensures forall p |
                P.Inv(p) && Mirrors(p, old(revision), old(listeners)) && P.Request(id, expected) in p.requests ::
                r.Ok? ==>
                  && P.SkipCommits(p, id, expected) && id !in p.active
                  && Mirrors(P.Apply(p, P.Skip(id, expected)), revision, listeners)
    {
      var checked := CheckSkip(id, expected, previous, target);
      if checked.Err? {
        return Err(checked.error);
      }
      forall p | P.Inv(p) && Mirrors(p, revision, listeners) && P.Request(id, expected) in p.requests
        ensures P.SkipCommits(p, id, expected) && id !in p.active
        ensures Mirrors(P.Apply(p, P.Skip(id, expected)), revision + 1,
                        listeners[id := listeners[id].(paused := false)])
      {
        SkipIsStep(p, revision, listeners, id);
      }
      MoveCheckpoint(listeners[id], previous, target);
      listeners := listeners[id := listeners[id].(paused := false)];
      revision := revision + 1;
      var entry := SkipAudit(id, previous, checked.value, target.number, target.hash, revision);
      skips := skips + [entry];
      r := Ok(entry);
    }

    /** The tests of the transaction, in order; the first block that is skipped. */
    method CheckSkip(id: nat, expected: nat, previous: Option<Checkpoint>, target: CanonicalBlock)
      returns (r: Result<nat, Error>)
      ensures r.Ok? <==> Skippable(id, expected, previous, target)
      ensures r.Ok? ==>
                r.value == (match store.checkpoint case None => listeners[id].start case Some(cp) => cp.number + 1)
    {
      if target.number >= MAX_INT64 || target.hash == ZERO_HASH || (target.number > 0 && target.parent == ZERO_HASH) {
        return Err(SkipConflict);
      }
      if expected > MAX_INT64 {
        return Err(OutOfRange);
      }
      if revision != expected {
        return Err(RevisionConflict);
      }
      if id !in listeners {
        return Err(NotFound);
      }
      if !listeners[id].paused || target.number < listeners[id].start {
        return Err(SkipConflict);
      }
      if exists j | j in jobs.rows :: Jobs.Active(jobs.rows[j].state) {
        return Err(ActiveBackfill);
      }
      var from := listeners[id].start;
      if store.checkpoint.None? {
        if previous.Some? {
          return Err(SkipConflict);
        }
      } else {
        if previous != store.checkpoint || target.number <= store.checkpoint.value.number {
          return Err(SkipConflict);
        }
        from := store.checkpoint.value.number + 1;
      }
      if exists e | e in store.events :: store.events[e].event.blockNumber == target.number
                                         && store.events[e].event.blockHash != target.hash {
        return Err(SkipConflict);
      }
      if L.HashElsewhere(store.canonical, target) {
        return Err(DuplicateBlockHash);
      }
      r := Ok(from);
    }

    /** Write the new checkpoint and its history row, and drop rows below the reorg depth. */
    method MoveCheckpoint(row: ListenerRow, previous: Option<Checkpoint>, target: CanonicalBlock)
      requires L.SkipTo(store.State(), row.start, row.depth, previous, target).Ok?
      modifies store`checkpoint, store`canonical
      ensures store.checkpoint == Some(Checkpoint(target.number, target.hash))
      ensures forall n :: n in store.canonical <==>
                (n in old(store.canonical) || n == target.number) && target.number <= n + row.depth
      ensures forall n | n in store.canonical ::
                store.canonical[n] == if n == target.number then target else old(store.canonical)[n]
      ensures L.SkipTo(old(store.State()), row.start, row.depth, previous, target) == Ok(store.State())
    {
      store.checkpoint := Some(Checkpoint(target.number, target.hash));
      store.canonical := store.canonical[target.number := target];
      if target.number > row.depth {
        store.canonical := L.Prune(store.canonical, target.number - row.depth);
      }
    }
  }
}

/** A completed reconcile pass of the runtime manager is a trace of the skip protocol. */
module SkipAgreement {
  import opened Common
  import opened Runtime
  import P = SkipProtocol

  /** The steps lead from one protocol state to the other. */
  ghost predicate Leads(p: P.Protocol, steps: seq<P.Step>, p': P.Protocol) {
    P.Inv(p) && P.Run(p, steps) && P.After(p, steps) == p' && P.Inv(p')
  }

  lemma {:induction false} LeadsOn(p: P.Protocol, steps: seq<P.Step>, m: P.Protocol, s: P.Step)
    requires Leads(p, steps, m) && P.Enabled(m, s)
    ensures Leads(p, steps + [s], P.Apply(m, s))
    decreases |steps|
  {
    P.StepKeepsInv(m, s);
    if steps == [] {
      assert steps + [s] == [s] && [s][1..] == [];
    } else {
      P.StepKeepsInv(p, steps[0]);
      LeadsOn(P.Apply(p, steps[0]), steps[1..], m, s);
      assert (steps + [s])[1..] == steps[1..] + [s];
    }
  }

  /** Scanners that have exited leave one by one. */
  lemma {:induction false} ExitAll(p: P.Protocol, gone: set<nat>) returns (steps: seq<P.Step>)
    requires P.Inv(p)
    ensures Leads(p, steps, p.(active := p.active - gone))
    decreases |gone|
  {
    if gone == {} {
      steps := [];
      assert p.active - gone == p.active;
    } else {
      var id :| id in gone;
      steps := ExitAll(p, gone - {id});
      var m := p.(active := p.active - (gone - {id}));
      LeadsOn(p, steps, m, P.Exit(id));
      assert m.active - {id} == p.active - gone;
      steps := steps + [P.Exit(id)];
    }
  }

  /** What the pass may make of one listener: it takes down what is not wanted, and never just stops what is. */
  ghost predicate MayVisit(p: P.Protocol, c: P.Configuration, target: set<nat>, id: nat) {
    if P.Unwanted(c, id) then id !in target else id in p.active ==> id in target
  }

  /** Visits of these listeners that end with exactly the target running. */
  lemma {:induction false} VisitAll(
      first: P.Protocol, before: seq<P.Step>, p: P.Protocol, ids: set<nat>, target: set<nat>)
    returns (steps: seq<P.Step>)
    requires Leads(first, before, p) && p.phase.Working? && ids <= p.phase.todo
    requires forall id | id in ids :: MayVisit(p, p.history[p.latest.value], target, id)
    requires forall id | id !in ids :: id in p.active <==> id in target
    ensures Leads(first, steps, p.(phase := P.Working(p.phase.todo - ids), active := target))
    decreases |ids|
  {
    if ids == {} {
      steps := before;
      assert p.active == target && p.phase.todo - ids == p.phase.todo;
    } else {
      var id :| id in ids;
      var s := P.Visit(id, id in target);
      LeadsOn(first, before, p, s);
      var m := P.Apply(p, s);
      assert id in m.active <==> id in target by { assert MayVisit(p, p.history[p.latest.value], target, id); }
      forall x | x in ids - {id} ensures MayVisit(m, m.history[m.latest.value], target, x) {
        assert MayVisit(p, p.history[p.latest.value], target, x);
      }
      steps := VisitAll(first, before + [s], m, ids - {id}, target);
      assert m.phase.todo - (ids - {id}) == p.phase.todo - ids;
    }
  }

  /** The configuration names exactly these listeners and which of them are paused. */
  ghost predicate Describes(c: P.Configuration, ls: seq<Listener>) {
    && c.Keys == IdsOf(ls)
    && (forall j | 0 <= j < |ls| :: ls[j].id in c && c[ls[j].id] == ls[j].paused)
  }

  /** The snapshot is the protocol's current configuration. */
  ghost predicate SnapshotOf(s: Snapshot, p: P.Protocol) {
    && p.history != [] && p.Revision() == s.revision
    && Describes(p.history[|p.history| - 1], s.listeners)
  }

  lemma ReconciledMayVisit(
      e: Env, s: Snapshot, now: int, a: map<nat, Active>, f: map<nat, Failure>,
      active: map<nat, Active>, failed: map<nat, Failure>, p: P.Protocol, id: nat)
    requires Reconciled(e, s.listeners, now, a, f, active, failed) && SnapshotOf(s, p) && p.active == a.Keys
    ensures MayVisit(p, p.history[|p.history| - 1], active.Keys, id)
    ensures id !in p.history[|p.history| - 1] && id !in p.active ==> id !in active
  {
    var c := p.history[|p.history| - 1];
    if id in c {
      var j :| 0 <= j < |s.listeners| && s.listeners[j].id == id;
      var l := s.listeners[j];
      assert Brought(e, l, now, Lookup(a, id), Lookup(f, id), Lookup(active, id), Lookup(failed, id));
    }
  }

  /** What the manager publishes is what the protocol publishes: the `stopped` tests agree. */
  ghost predicate SameStatus(status: Status, p: P.Protocol) {
    forall id, revision: nat ::
      P.Stopped(p, id, revision) <==>
      status.initial && status.desired == revision && id in status.entries && status.entries[id] == Paused
  }

  lemma PublishedIsSame(
      e: Env, s: Snapshot, active: map<nat, Active>, failed: map<nat, Failure>, status: Status,
      c: P.Configuration, p: P.Protocol)
    requires Published(e, s, active, failed, status) && Describes(c, s.listeners)
    requires p.status == Some(P.Published(s.revision, set id | id in c && c[id]))
    ensures SameStatus(status, p)
  {
    forall id ensures id in c && c[id] <==> id in status.entries && status.entries[id] == Paused {
      if id in c {
        var j :| 0 <= j < |s.listeners| && s.listeners[j].id == id;
        assert Shows(e, s.listeners[j], active, failed, status.entries[id]);
      }
    }
  }

  /**
   What Runtime.Manager.Reconcile guarantees of a completed pass is a trace of the protocol: exits, one read of
   the current configuration, visits and one publication, after which the two agree on what runs and on `stopped`.
   */
  lemma ReconcileIsTrace(
      e: Env, s: Snapshot, now: int, before: map<nat, Active>, f: map<nat, Failure>,
      active: map<nat, Active>, failed: map<nat, Failure>, status: Status, p: P.Protocol)
    returns (steps: seq<P.Step>, p': P.Protocol)
    requires Completed(e, s, now, Surviving(before, e.exited), f, active, failed, status)
    requires P.Inv(p) && p.phase.Idle? && SnapshotOf(s, p) && p.active == before.Keys
    ensures Leads(p, steps, p') && p'.phase.Idle? && p'.history == p.history && p'.requests == p.requests
    ensures p'.active == active.Keys && SameStatus(status, p')
  {
    var a := Surviving(before, e.exited);
    var m;
    steps, m := TraceToRead(p, before.Keys - a.Keys);
    assert m.active == a.Keys;
    steps, m := TraceToVisited(e, s, now, a, f, active, failed, p, steps, m);
    LeadsOn(p, steps, m, P.Publish);
    steps, p' := steps + [P.Publish], P.Apply(m, P.Publish);
    PublishedIsSame(e, s, active, failed, status, p.history[|p.history| - 1], p');
  }

  lemma TraceToRead(p: P.Protocol, gone: set<nat>) returns (steps: seq<P.Step>, m: P.Protocol)
    requires P.Inv(p) && p.phase.Idle?
    ensures Leads(p, steps, m) && m.history == p.history && m.requests == p.requests && m.active == p.active - gone
    ensures m.latest == Some(p.Revision()) && m.phase == P.Working(p.history[|p.history| - 1].Keys + m.active)
    ensures m.status == p.status
  {
    steps := ExitAll(p, gone);
    m := p.(active := p.active - gone);
    LeadsOn(p, steps, m, P.Read);
    steps, m := steps + [P.Read], P.Apply(m, P.Read);
  }

  lemma TraceToVisited(
      e: Env, s: Snapshot, now: int, a: map<nat, Active>, f: map<nat, Failure>,
      active: map<nat, Active>, failed: map<nat, Failure>, p: P.Protocol, before: seq<P.Step>, m: P.Protocol)
    returns (steps: seq<P.Step>, m': P.Protocol)
    requires Reconciled(e, s.listeners, now, a, f, active, failed) && SnapshotOf(s, m)
    requires Leads(p, before, m) && m.active == a.Keys && m.latest == Some(m.Revision())
    requires m.phase == P.Working(m.history[|m.history| - 1].Keys + m.active)
    ensures m' == m.(phase := P.Working({}), active := active.Keys) && Leads(p, steps, m')
  {
    forall id
      ensures MayVisit(m, m.history[|m.history| - 1], active.Keys, id)
      ensures id !in m.phase.todo ==> id !in m.active && id !in active
    {
      ReconciledMayVisit(e, s, now, a, f, active, failed, m, id);
    }
    steps := VisitAll(p, before, m, m.phase.todo, active.Keys);
    assert m.phase.todo - m.phase.todo == {};
    m' := m.(phase := P.Working({}), active := active.Keys);
  }

  /** A listener an interrupted pass has not come to is as it was. */
  lemma HalfMayVisit(
      e: Env, s: Snapshot, now: int, a: map<nat, Active>, f: map<nat, Failure>,
      active: map<nat, Active>, failed: map<nat, Failure>, p: P.Protocol, id: nat)
    requires HalfReconciled(e, s.listeners, now, a, f, active, failed)
    requires SnapshotOf(s, p) && UniqueIds(s.listeners) && p.active == a.Keys
    ensures MayVisit(p, p.history[|p.history| - 1], active.Keys, id) || (id in p.active && id in active)
    ensures id !in p.history[|p.history| - 1] ==> id !in active
  {
    var ls, c := s.listeners, p.history[|p.history| - 1];
    var n: nat :| n <= |ls| && BroughtAll(e, ls, now, Kept(a, IdsOf(ls)), Kept(f, IdsOf(ls)), active, failed, n);
    if id in c {
      var l :| l in ls && l.id == id;
      var j :| 0 <= j < |ls| && ls[j] == l;
      HalfWay(e, ls, now, a, f, active, failed, n, j);
    } else {
      UndesiredStands(e, ls, now, Kept(a, IdsOf(ls)), Kept(f, IdsOf(ls)), active, failed, n, id);
    }
  }

  lemma HalfWay(
      e: Env, ls: seq<Listener>, now: int, a: map<nat, Active>, f: map<nat, Failure>,
      active: map<nat, Active>, failed: map<nat, Failure>, n: nat, j: nat)
    requires UniqueIds(ls) && n <= |ls| && j < |ls|
    requires BroughtAll(e, ls, now, Kept(a, IdsOf(ls)), Kept(f, IdsOf(ls)), active, failed, n)
    ensures Lookup(active, ls[j].id) == Lookup(a, ls[j].id)
            || if ls[j].paused then ls[j].id !in active else ls[j].id in a ==> ls[j].id in active
  {
    var b, g, id := Kept(a, IdsOf(ls)), Kept(f, IdsOf(ls)), ls[j].id;
    assert ls[j] in ls && Lookup(b, id) == Lookup(a, id);
    if j < n {
      BroughtKeepsRunning(e, ls[j], now, Lookup(b, id), Lookup(g, id), Lookup(active, id), Lookup(failed, id));
    } else {
      assert forall i | 0 <= i < n :: ls[i].id != id;
    }
  }

  /** An interrupted pass is a trace too: exits, one read, some visits, and no publication. */
  lemma InterruptedReconcileIsTrace(
      e: Env, s: Snapshot, now: int, before: map<nat, Active>, f: map<nat, Failure>,
      active: map<nat, Active>, failed: map<nat, Failure>, p: P.Protocol)
    returns (steps: seq<P.Step>, p': P.Protocol)
    requires HalfReconciled(e, s.listeners, now, Surviving(before, e.exited), f, active, failed)
    requires P.Inv(p) && p.phase.Idle? && SnapshotOf(s, p) && UniqueIds(s.listeners) && p.active == before.Keys
    ensures Leads(p, steps, p') && p'.phase.Idle? && p'.history == p.history && p'.requests == p.requests
    ensures p'.active == active.Keys && p'.status == p.status
  {
    var a := Surviving(before, e.exited);
    var m;
    steps, m := TraceToRead(p, before.Keys - a.Keys);
    assert m.active == a.Keys;
    var c := m.history[|m.history| - 1];
    var ids := set id | id in m.phase.todo && !(id in m.active && id in active);
    forall id
      ensures MayVisit(m, c, active.Keys, id) || (id in m.active && id in active)
      ensures id !in c ==> id !in active
    {
      HalfMayVisit(e, s, now, a, f, active, failed, m, id);
    }
    steps := VisitAll(p, steps, m, ids, active.Keys);
    m := m.(phase := P.Working(m.phase.todo - ids), active := active.Keys);
    LeadsOn(p, steps, m, P.Abort);
    steps, p' := steps + [P.Abort], P.Apply(m, P.Abort);
  }
}
