/** The runtime manager: the one owner of the running scanners. */
module Runtime {
  import opened Common
  import opened Backoff

  datatype Listener = Listener(id: nat, chain: nat, paused: bool, configuration: nat)

  datatype Snapshot = Snapshot(revision: nat, listeners: seq<Listener>)

  /** `handle` is the identity of the built runtime. */
  datatype Active = Active(handle: nat, chain: nat, hash: nat, idle: bool)

  datatype Failure = Failure(hash: nat, attempts: nat, retryAfter: int)

  datatype ListenerState = Paused | Running | Idle | BuildFailed | Retrying

  datatype Status = Status(desired: nat, initial: bool, ready: bool, entries: map<nat, ListenerState>)

  datatype Built = BuildError | NoRunner | Candidate(idle: bool)

  const NO_HASH := 0

  /** What the environment answers during one reconcile: exits, builds, cancellation and hashes. */
  datatype Env = Env(
    exited: nat -> bool, build: nat -> Built, cancelled: nat -> bool, hash: Listener -> Option<nat>,
    retryBase: nat, retryMax: nat)

  predicate ValidEnv(e: Env) {
    0 < e.retryBase <= e.retryMax
  }

  function HashOf(e: Env, l: Listener): nat {
    match e.hash(l) case Some(h) => h case None => NO_HASH
  }

  /** Listener ids are the primary key. */
  ghost predicate UniqueIds(s: seq<Listener>) {
    forall i, j | 0 <= i < j < |s| :: s[i].id != s[j].id
  }

  function Lookup<T>(m: map<nat, T>, id: nat): Option<T> {
    if id in m then Some(m[id]) else None
  }

  /** The service was cancelled while this listener's runtime was being built. */
  predicate Interrupted(e: Env, id: nat) {
    e.build(id).Candidate? && e.cancelled(id)
  }

  /** The failure record after one more failure of this configuration. */
  function FailureAfter(e: Env, before: Option<Failure>, hash: nat, now: int): Failure {
    var attempts := if before.Some? && before.value.hash == hash then before.value.attempts + 1 else 1;
    Failure(hash, attempts, now + Ideal(e.retryBase, e.retryMax, attempts))
  }

  /** What a reconcile makes of one unpaused listener. */
  ghost predicate Settled(
      e: Env, l: Listener, now: int, before: Option<Active>, failing: Option<Failure>,
      after: Option<Active>, failed: Option<Failure>)
  {
    var hash := HashOf(e, l);
    if e.hash(l).Some? && before.Some? && before.value.hash == hash then after == before && failed.None?
    else if e.hash(l).Some? && failing.Some? && failing.value.hash == hash && now < failing.value.retryAfter then
      after == before && failed == failing
    else if e.hash(l).Some? && e.build(l.id).Candidate? then
      && failed.None? && after.Some?
      && after.value == Active(after.value.handle, l.chain, hash, e.build(l.id).idle)
      && (before.Some? ==> after.value.handle != before.value.handle)
    else after == before && failed == Some(FailureAfter(e, failing, hash, now))
  }

  // ------------------------------------------- what became of each runtime built

  /** Built and not yet used; running; closed unused; or stopped: its result received and then closed. */
  datatype Fate = Loose | Running(id: nat) | Discarded | Finished

  /** The runtimes built so far are 0, ..., next - 1; those running are exactly the active ones. */
  ghost predicate Accounted(active: map<nat, Active>, next: nat, fate: map<nat, Fate>, loose: Option<nat>) {
    && (forall h :: h in fate <==> 0 <= h < next)
    && (forall id | id in active :: active[id].handle in fate && fate[active[id].handle] == Fate.Running(id))
    && (forall h | h in fate && fate[h].Running? :: fate[h].id in active && active[fate[h].id].handle == h)
    && (forall h | h in fate && fate[h].Loose? :: loose == Some(h))
    && (loose.Some? ==> loose.value in fate && fate[loose.value].Loose?)
  }

  predicate Closed(f: Fate) {
    f.Discarded? || f.Finished?
  }

  /** Nothing is forgotten, and what was closed once is not touched again. */
  ghost predicate Progresses(fate: map<nat, Fate>, fate': map<nat, Fate>) {
    forall h | h in fate :: h in fate' && (Closed(fate[h]) ==> fate'[h] == fate[h])
  }

  class Manager {
    var active: map<nat, Active>
    var failed: map<nat, Failure>
    var status: Status
    var next: nat
    ghost var fate: map<nat, Fate>

    /** Every runtime built is running or closed, but for the one in hand. */
    ghost predicate Valid(loose: Option<nat>)
      reads this`active, this`next, this`fate
    {
      Accounted(active, next, fate, loose)
    }

    constructor ()
      ensures Valid(None) && active == map[] && failed == map[] && !status.initial && next == 0
    {
      active, failed, next := map[], map[], 0;
      status := Status(0, false, false, map[]);
      fate := map[];
    }

    /** Cancel, wait for the result, close, forget. */
    method Stop(id: nat, ghost loose: Option<nat>)
      requires Valid(loose) && id in active
      modifies this`active, this`fate
      ensures Valid(loose) && active == old(active) - {id}
      ensures old(fate)[old(active)[id].handle] == Fate.Running(id)
      ensures fate == old(fate)[old(active)[id].handle := Finished]
    {
      fate := fate[active[id].handle := Finished];
      active := active - {id};
    }

    method StopAll(ids: set<nat>)
      requires Valid(None) && ids <= active.Keys
      modifies this`active, this`fate
      ensures Valid(None) && active == old(active) - ids && Progresses(old(fate), fate)
    {
      var todo := ids;
      while todo != {}
        invariant Valid(None) && todo <= ids && todo <= active.Keys
        invariant active == old(active) - (ids - todo) && Progresses(old(fate), fate)
        decreases |todo|
      {
        var id :| id in todo;
        ghost var before, h := fate, active[id].handle;
        Stop(id, None);
        FinishProgresses(old(fate), before, h);
        RemoveOne(old(active), ids, todo, id);
        todo := todo - {id};
      }
    }

    method ReapExited(exited: nat -> bool)
      requires Valid(None)
      modifies this`active, this`fate
      ensures Progresses(old(fate), fate)
      ensures Valid(None) && active == Surviving(old(active), exited)
    {
      StopAll(set id | id in active && exited(active[id].handle));
    }

    method RecordFailure(e: Env, id: nat, hash: nat, now: int)
      requires ValidEnv(e)
      modifies this`failed
      ensures failed == old(failed)[id := FailureAfter(e, Lookup(old(failed), id), hash, now)]
    {
      var attempts := 1;
      if id in failed && failed[id].hash == hash {
        attempts := failed[id].attempts + 1;
      }
      var delay := BoundedBackoff(e.retryBase, e.retryMax, attempts);
      failed := failed[id := Failure(hash, attempts, now + delay)];
    }

    /** Register a built runtime and let it run. */
    method Start(l: Listener, hash: nat, handle: nat, idle: bool)
      requires l.id !in active && Valid(Some(handle))
      modifies this`active, this`fate
      ensures Valid(None) && active == old(active)[l.id := Active(handle, l.chain, hash, idle)]
      ensures fate == old(fate)[handle := Fate.Running(l.id)]
    {
      active := active[l.id := Active(handle, l.chain, hash, idle)];
      fate := fate[handle := Fate.Running(l.id)];
    }

    /** Bring one desired listener to its configuration; false when the service is being cancelled. */
    method Visit(e: Env, l: Listener, now: int) returns (go: bool)
      requires Valid(None) && ValidEnv(e)
      modifies this`active, this`failed, this`next, this`fate
      ensures Progresses(old(fate), fate)
      ensures Valid(None) && SameBut(l.id, old(active), active) && SameBut(l.id, old(failed), failed)
      ensures !go ==> active == old(active) && failed == old(failed) && Interrupted(e, l.id)
      ensures go ==> Brought(e, l, now, Lookup(old(active), l.id), Lookup(old(failed), l.id),
                             Lookup(active, l.id), Lookup(failed, l.id))
    {
      if l.paused {
        Suspend(l.id);
        Removed(old(active), l.id);
        Removed(old(failed), l.id);
        return true;
      }
      go := VisitUnpaused(e, l, now);
    }

    /** A paused listener does not run, and its failures are forgotten. */
    method Suspend(id: nat)
      requires Valid(None)
      modifies this`active, this`failed, this`fate
      ensures Progresses(old(fate), fate)
      ensures Valid(None) && active == old(active) - {id} && failed == old(failed) - {id}
    {
      if id in active {
        Stop(id, None);
      } else {
        assert active - {id} == active;
      }
      failed := failed - {id};
    }

    method VisitUnpaused(e: Env, l: Listener, now: int) returns (go: bool)
      requires Valid(None) && ValidEnv(e)
      modifies this`active, this`failed, this`next, this`fate
      ensures Progresses(old(fate), fate)
      ensures Valid(None) && SameBut(l.id, old(active), active) && SameBut(l.id, old(failed), failed)
      ensures !go ==> active == old(active) && failed == old(failed) && Interrupted(e, l.id)
      ensures go ==> Settled(e, l, now, Lookup(old(active), l.id), Lookup(old(failed), l.id),
                             Lookup(active, l.id), Lookup(failed, l.id))
    {
      var hash := HashOf(e, l);
      if e.hash(l).None? {
        RecordFailure(e, l.id, hash, now);
        return true;
      }
      if l.id in active && active[l.id].hash == hash {
        failed := failed - {l.id};
        return true;
      }
      if l.id in failed && failed[l.id].hash == hash && now < failed[l.id].retryAfter {
        return true;
      }
      go := Replace(e, l, hash, now);
    }

    /** Build the runtime first; only a good one replaces what is running. */
    method Replace(e: Env, l: Listener, hash: nat, now: int) returns (go: bool)
      requires Valid(None) && ValidEnv(e)
      modifies this`active, this`failed, this`next, this`fate
      ensures Progresses(old(fate), fate)
      ensures Valid(None) && SameBut(l.id, old(active), active) && SameBut(l.id, old(failed), failed)
      ensures !go ==> active == old(active) && failed == old(failed) && Interrupted(e, l.id)
      ensures go && !e.build(l.id).Candidate? ==>
                && active == old(active)
                && failed == old(failed)[l.id := FailureAfter(e, Lookup(old(failed), l.id), hash, now)]
      ensures go && e.build(l.id).Candidate? ==>
                && l.id !in failed && l.id in active
                && active[l.id] == Active(active[l.id].handle, l.chain, hash, e.build(l.id).idle)
                && (l.id in old(active) ==> active[l.id].handle != old(active)[l.id].handle)
    {
      var candidate := e.build(l.id);
      if candidate.BuildError? {
        RecordFailure(e, l.id, hash, now);
        return true;
      }
      var handle := NewHandle();
      if candidate.NoRunner? {
        CloseRuntime(handle);
        RecordFailure(e, l.id, hash, now);
        return true;
      }
      if e.cancelled(l.id) {
        CloseRuntime(handle);
        return false;
      }
      Install(l, hash, handle, candidate.idle);
      failed := failed - {l.id};
      go := true;
    }

    method NewHandle() returns (handle: nat)
      requires Valid(None)
      modifies this`next, this`fate
      ensures Valid(Some(handle)) && handle !in old(fate) && fate == old(fate)[handle := Loose]
    {
      handle := next;
      next := next + 1;
      fate := fate[handle := Loose];
    }

    /** Close a runtime that never ran. */
    method CloseRuntime(handle: nat)
      requires Valid(Some(handle))
      modifies this`fate
      ensures Valid(None) && fate == old(fate)[handle := Discarded]
    {
      fate := fate[handle := Discarded];
    }

    /** Stop what runs for the listener and start the new runtime in its place. */
    method Install(l: Listener, hash: nat, handle: nat, idle: bool)
      requires Valid(Some(handle))
      modifies this`active, this`fate
      ensures Progresses(old(fate), fate)
      ensures Valid(None) && SameBut(l.id, old(active), active)
      ensures l.id in active && active[l.id] == Active(handle, l.chain, hash, idle)
      ensures l.id in old(active) ==> old(active)[l.id].handle != handle
    {
      if l.id in active {
        Stop(l.id, Some(handle));
      }
      Start(l, hash, handle, idle);
    }

    /** Stop what is no longer configured. */
    method StopMissing(desired: set<nat>)
      requires Valid(None)
      modifies this`active, this`fate
      ensures Progresses(old(fate), fate)
      ensures Valid(None) && active == Kept(old(active), desired)
    {
      StopAll(set id | id in active && id !in desired);
    }

    /** One serialized pass over the desired state. */
    method Reconcile(snapshot: Option<Snapshot>, e: Env, now: int) returns (completed: bool)
      requires Valid(None) && ValidEnv(e) && (snapshot.Some? ==> UniqueIds(snapshot.value.listeners))
      modifies this`active, this`failed, this`next, this`fate, this`status
      ensures Progresses(old(fate), fate)
      ensures Valid(None)
      ensures snapshot.None? ==>
                && !completed && active == Surviving(old(active), e.exited) && failed == old(failed)
                && status == old(status).(ready := false)
      ensures snapshot.Some? && !completed ==>
                && status == old(status) && (exists l :: l in snapshot.value.listeners && Interrupted(e, l.id))
                && HalfReconciled(e, snapshot.value.listeners, now, Surviving(old(active), e.exited), old(failed),
                                  active, failed)
      ensures completed ==>
                && snapshot.Some?
                && Completed(e, snapshot.value, now, Surviving(old(active), e.exited), old(failed),
                             active, failed, status)
    {
      ReapExited(e.exited);
      if snapshot.None? {
        NotReady();
        return false;
      }
      completed := Settle(snapshot.value, e, now, Surviving(old(active), e.exited), old(failed));
    }

    method NotReady()
      modifies this`status
      ensures status == old(status).(ready := false)
    {
      status := status.(ready := false);
    }

    method Settle(snapshot: Snapshot, e: Env, now: int, ghost a: map<nat, Active>, ghost f: map<nat, Failure>)
      returns (completed: bool)
      requires Valid(None) && ValidEnv(e) && UniqueIds(snapshot.listeners) && a == active && f == failed
      modifies this`active, this`failed, this`next, this`fate, this`status
      ensures Progresses(old(fate), fate)
      ensures Valid(None)
      ensures !completed ==> status == old(status) && exists l :: l in snapshot.listeners && Interrupted(e, l.id)
      ensures !completed ==> HalfReconciled(e, snapshot.listeners, now, a, f, active, failed)
      ensures completed ==> Completed(e, snapshot, now, a, f, active, failed, status)
    {
      completed := BringAll(snapshot.listeners, e, now);
      if completed {
        PublishStatus(e, snapshot);
      }
    }

    /** Forget what is not desired, then visit what is. */
    method BringAll(listeners: seq<Listener>, e: Env, now: int) returns (completed: bool)
      requires Valid(None) && ValidEnv(e) && UniqueIds(listeners)
      modifies this`active, this`failed, this`next, this`fate
      ensures Progresses(old(fate), fate)
      ensures Valid(None)
      ensures completed ==> Reconciled(e, listeners, now, old(active), old(failed), active, failed)
      ensures !completed ==> exists l :: l in listeners && Interrupted(e, l.id)
      ensures !completed ==> HalfReconciled(e, listeners, now, old(active), old(failed), active, failed)
    {
      var desired := IdsOf(listeners);
      StopMissing(desired);
      failed := Kept(failed, desired);
      ghost var b, g := active, failed;
      completed := VisitAll(listeners, e, now);
      if completed {
        AllAreReconciled(e, listeners, now, old(active), old(failed), b, g, active, failed);
      }
    }

    method VisitAll(listeners: seq<Listener>, e: Env, now: int) returns (completed: bool)
      requires Valid(None) && ValidEnv(e) && UniqueIds(listeners)
      modifies this`active, this`failed, this`next, this`fate
      ensures Progresses(old(fate), fate)
      ensures Valid(None)
      ensures completed ==> BroughtAll(e, listeners, now, old(active), old(failed), active, failed, |listeners|)
      ensures !completed ==> exists l :: l in listeners && Interrupted(e, l.id)
      ensures !completed ==>
                exists n: nat ::
                  n <= |listeners| && BroughtAll(e, listeners, now, old(active), old(failed), active, failed, n)
    {
      completed := true;
      for i := 0 to |listeners|
        invariant Valid(None) && Progresses(old(fate), fate)
        invariant BroughtAll(e, listeners, now, old(active), old(failed), active, failed, i)
      {
        ghost var a, f := active, failed;
        var go := Visit(e, listeners[i], now);
        if !go {
          assert listeners[i] in listeners;
          return false;
        }
        BroughtNext(e, listeners, now, old(active), old(failed), a, f, active, failed, i);
      }
    }

    method PublishStatus(e: Env, snapshot: Snapshot)
      requires UniqueIds(snapshot.listeners)
      modifies this`status
      ensures Published(e, snapshot, active, failed, status)
    {
      var entries: map<nat, ListenerState> := map[];
      var ready := true;
      var listeners := snapshot.listeners;
      for i := 0 to |listeners|
        invariant entries.Keys == IdsOf(listeners[..i])
        invariant forall j | 0 <= j < i ::
                    listeners[j].id in entries && Shows(e, listeners[j], active, failed, entries[listeners[j].id])
        invariant ready <==> forall j | 0 <= j < i :: Healthy(entries[listeners[j].id])
      {
        assert listeners[..i + 1] == listeners[..i] + [listeners[i]];
        var state, good := Judge(e, listeners[i]);
        entries := entries[listeners[i].id := state];
        ready := ready && good;
      }
      assert listeners[..|listeners|] == listeners;
      status := Status(snapshot.revision, true, ready, entries);
    }

    /** The state the status shows for one listener, and whether it leaves the engine ready. */
    method Judge(e: Env, l: Listener) returns (state: ListenerState, good: bool)
      ensures Shows(e, l, active, failed, state) && (good <==> Healthy(state))
    {
      var hash := HashOf(e, l);
      good := true;
      if l.paused {
        state := Paused;
      } else if e.hash(l).Some? && l.id in active && active[l.id].hash == hash
                && (l.id !in failed || failed[l.id].hash != hash) {
        state := if active[l.id].idle then Idle else ListenerState.Running;
      } else {
        good := false;
        state := BuildFailed;
        if l.id in failed && failed[l.id].hash == hash && failed[l.id].attempts > 1 {
          state := Retrying;
        }
      }
    }

    /** Stop every scanner: afterwards every runtime ever built is closed. */
    method Shutdown()
      requires Valid(None)
      modifies this`active, this`fate
      ensures Valid(None) && active == map[] && Progresses(old(fate), fate)
      ensures forall h: nat | h < next :: h in fate && Closed(fate[h])
    {
      StopAll(active.Keys);
    }
  }

  lemma FinishProgresses(first: map<nat, Fate>, before: map<nat, Fate>, h: nat)
    requires Progresses(first, before) && h in before && !Closed(before[h])
    ensures Progresses(first, before[h := Finished])
  {
  }

  lemma RemoveOne(m: map<nat, Active>, ids: set<nat>, todo: set<nat>, id: nat)
    requires id in todo && todo <= ids
    ensures (m - (ids - todo)) - {id} == m - (ids - (todo - {id}))
  {
  }

  /** The maps differ at most at this key. */
  ghost predicate SameBut<T>(id: nat, m: map<nat, T>, m': map<nat, T>) {
    forall x | x != id :: Lookup(m', x) == Lookup(m, x)
  }

  lemma Removed<T>(m: map<nat, T>, id: nat)
    ensures SameBut(id, m, m - {id}) && Lookup(m - {id}, id).None?
  {
  }

  /** Paused: nothing runs and no failure is kept. Otherwise: settled. */
  ghost predicate Brought(
      e: Env, l: Listener, now: int, before: Option<Active>, failing: Option<Failure>,
      after: Option<Active>, failed: Option<Failure>)
  {
    if l.paused then after.None? && failed.None? else Settled(e, l, now, before, failing, after, failed)
  }

  ghost predicate BroughtAll(
      e: Env, ls: seq<Listener>, now: int, a: map<nat, Active>, f: map<nat, Failure>,
      a': map<nat, Active>, f': map<nat, Failure>, n: nat)
    requires n <= |ls|
  {
    && (forall i | 0 <= i < n ::
          Brought(e, ls[i], now, Lookup(a, ls[i].id), Lookup(f, ls[i].id), Lookup(a', ls[i].id), Lookup(f', ls[i].id)))
    && (forall x | (forall i | 0 <= i < n :: ls[i].id != x) ::
          Lookup(a', x) == Lookup(a, x) && Lookup(f', x) == Lookup(f, x))
  }

  lemma BroughtNext(
      e: Env, ls: seq<Listener>, now: int, a: map<nat, Active>, f: map<nat, Failure>,
      b: map<nat, Active>, g: map<nat, Failure>, a': map<nat, Active>, f': map<nat, Failure>, n: nat)
    requires UniqueIds(ls) && n < |ls| && BroughtAll(e, ls, now, a, f, b, g, n)
    requires SameBut(ls[n].id, b, a') && SameBut(ls[n].id, g, f')
    requires Brought(e, ls[n], now, Lookup(b, ls[n].id), Lookup(g, ls[n].id),
                     Lookup(a', ls[n].id), Lookup(f', ls[n].id))
    ensures BroughtAll(e, ls, now, a, f, a', f', n + 1)
  {
    forall i | 0 <= i < n + 1
      ensures Brought(e, ls[i], now, Lookup(a, ls[i].id), Lookup(f, ls[i].id),
                      Lookup(a', ls[i].id), Lookup(f', ls[i].id))
    {
      if i < n {
        assert Lookup(a', ls[i].id) == Lookup(b, ls[i].id);
      }
    }
  }

  /** A pass visits only what is desired. */
  lemma UndesiredStands(
      e: Env, ls: seq<Listener>, now: int, a: map<nat, Active>, f: map<nat, Failure>,
      a': map<nat, Active>, f': map<nat, Failure>, n: nat, x: nat)
    requires n <= |ls| && BroughtAll(e, ls, now, a, f, a', f', n) && x !in IdsOf(ls)
    ensures Lookup(a', x) == Lookup(a, x) && Lookup(f', x) == Lookup(f, x)
  {
    assert forall i | 0 <= i < n :: ls[i] in ls && ls[i].id != x;
  }

  /** A pass takes down what is paused and never just stops what is not. */
  lemma BroughtKeepsRunning(
      e: Env, l: Listener, now: int, before: Option<Active>, failing: Option<Failure>,
      after: Option<Active>, failed: Option<Failure>)
    requires Brought(e, l, now, before, failing, after, failed)
    ensures if l.paused then after.None? else before.Some? ==> after.Some?
  {
  }

  /**
   After a completed reconcile every desired listener is brought to its configuration, and nothing
   that is not desired runs or is remembered.
   */
  ghost predicate Reconciled(
      e: Env, ls: seq<Listener>, now: int, a: map<nat, Active>, f: map<nat, Failure>,
      a': map<nat, Active>, f': map<nat, Failure>)
  {
    && (forall i | 0 <= i < |ls| ::
          Brought(e, ls[i], now, Lookup(a, ls[i].id), Lookup(f, ls[i].id), Lookup(a', ls[i].id), Lookup(f', ls[i].id)))
    && (forall x | x in a' || x in f' :: x in IdsOf(ls))
  }

  /** An interrupted pass has forgotten what is not desired and brought some of the listeners, in order. */
  ghost predicate HalfReconciled(
      e: Env, ls: seq<Listener>, now: int, a: map<nat, Active>, f: map<nat, Failure>,
      a': map<nat, Active>, f': map<nat, Failure>)
  {
    exists n: nat :: n <= |ls| && BroughtAll(e, ls, now, Kept(a, IdsOf(ls)), Kept(f, IdsOf(ls)), a', f', n)
  }

  lemma AllAreReconciled(
      e: Env, ls: seq<Listener>, now: int, a: map<nat, Active>, f: map<nat, Failure>,
      b: map<nat, Active>, g: map<nat, Failure>, a': map<nat, Active>, f': map<nat, Failure>)
    requires b == Kept(a, IdsOf(ls)) && g == Kept(f, IdsOf(ls))
    requires BroughtAll(e, ls, now, b, g, a', f', |ls|)
    ensures Reconciled(e, ls, now, a, f, a', f')
  {
    forall i | 0 <= i < |ls|
      ensures Brought(e, ls[i], now, Lookup(a, ls[i].id), Lookup(f, ls[i].id),
                      Lookup(a', ls[i].id), Lookup(f', ls[i].id))
    {
      assert Lookup(b, ls[i].id) == Lookup(a, ls[i].id) && Lookup(g, ls[i].id) == Lookup(f, ls[i].id);
    }
    forall x | x in a' || x in f' ensures x in IdsOf(ls) {
      if x !in IdsOf(ls) {
        UndesiredStands(e, ls, now, b, g, a', f', |ls|, x);
      }
    }
  }

  /** The listener runs its current configuration, and no failure of that configuration is on record. */
  predicate Undisturbed(e: Env, l: Listener, active: map<nat, Active>, failed: map<nat, Failure>) {
    Runs(e, l, active) && !(l.id in failed && failed[l.id].hash == HashOf(e, l))
  }

  /** What the status says of one listener. */
  predicate Shows(
      e: Env, l: Listener, active: map<nat, Active>, failed: map<nat, Failure>, state: ListenerState)
  {
    match state
    case Paused => l.paused
    case Running => !l.paused && Undisturbed(e, l, active, failed) && !active[l.id].idle
    case Idle => !l.paused && Undisturbed(e, l, active, failed) && active[l.id].idle
    case Retrying => !l.paused && !Undisturbed(e, l, active, failed) && FailedAgain(e, l, failed)
    case BuildFailed => !l.paused && !Undisturbed(e, l, active, failed) && !FailedAgain(e, l, failed)
  }

  predicate FailedAgain(e: Env, l: Listener, failed: map<nat, Failure>) {
    l.id in failed && failed[l.id].hash == HashOf(e, l) && failed[l.id].attempts >= 2
  }

  predicate Healthy(s: ListenerState) {
    s == Paused || s == ListenerState.Running || s == Idle
  }

  /** The status shows each listener's state, and readiness is that of all of them. */
  ghost predicate Published(e: Env, s: Snapshot, active: map<nat, Active>, failed: map<nat, Failure>, status: Status) {
    && status.initial && status.desired == s.revision
    && status.entries.Keys == IdsOf(s.listeners)
    && (forall j | 0 <= j < |s.listeners| :: s.listeners[j].id in status.entries &&
          Shows(e, s.listeners[j], active, failed, status.entries[s.listeners[j].id]))
    && (status.ready <==> forall j | 0 <= j < |s.listeners| :: Healthy(status.entries[s.listeners[j].id]))
  }

  ghost predicate Completed(
      e: Env, s: Snapshot, now: int, a: map<nat, Active>, f: map<nat, Failure>,
      active: map<nat, Active>, failed: map<nat, Failure>, status: Status)
  {
    Reconciled(e, s.listeners, now, a, f, active, failed) && Published(e, s, active, failed, status)
  }

  /**
   After a completed pass each desired unpaused listener runs its current configuration with no failure on
   record, or has a failure on record for that configuration and whatever ran before still in place.
   */
  lemma EveryListenerIsSettled(
      e: Env, s: Snapshot, now: int, a: map<nat, Active>, f: map<nat, Failure>,
      active: map<nat, Active>, failed: map<nat, Failure>, status: Status, j: nat)
    requires Completed(e, s, now, a, f, active, failed, status) && j < |s.listeners| && !s.listeners[j].paused
    ensures var l := s.listeners[j];
            || (Runs(e, l, active) && l.id !in failed)
            || (l.id in failed && failed[l.id].hash == HashOf(e, l) && Lookup(active, l.id) == Lookup(a, l.id))
  {
    var l := s.listeners[j];
    assert Brought(e, l, now, Lookup(a, l.id), Lookup(f, l.id), Lookup(active, l.id), Lookup(failed, l.id));
  }

  /** A status of `paused` published by a completed reconcile means that no scanner of that listener runs. */
  lemma PausedIsStopped(
      e: Env, s: Snapshot, now: int, a: map<nat, Active>, f: map<nat, Failure>,
      active: map<nat, Active>, failed: map<nat, Failure>, status: Status, id: nat)
    requires Completed(e, s, now, a, f, active, failed, status)
    requires id in status.entries && status.entries[id] == Paused
    ensures id !in active && id !in failed
  {
    var j :| 0 <= j < |s.listeners| && s.listeners[j].id == id;
    var l := s.listeners[j];
    assert Shows(e, l, active, failed, Paused);
    assert Brought(e, l, now, Lookup(a, id), Lookup(f, id), Lookup(active, id), Lookup(failed, id));
    PausedIsBrought(e, l, now, Lookup(a, id), Lookup(f, id), active, failed);
  }

  lemma PausedIsBrought(
      e: Env, l: Listener, now: int, a: Option<Active>, f: Option<Failure>,
      active: map<nat, Active>, failed: map<nat, Failure>)
    requires Brought(e, l, now, a, f, Lookup(active, l.id), Lookup(failed, l.id))
    requires Shows(e, l, active, failed, Paused)
    ensures l.id !in active && l.id !in failed
  {
  }

  /** A listener shows as healthy iff no failure of it is on record; an unpaused one then runs as configured. */
  lemma HealthyIsBrought(
      e: Env, l: Listener, now: int, a: Option<Active>, f: Option<Failure>,
      active: map<nat, Active>, failed: map<nat, Failure>, state: ListenerState)
    requires Brought(e, l, now, a, f, Lookup(active, l.id), Lookup(failed, l.id))
    requires Shows(e, l, active, failed, state)
    ensures Healthy(state) <==> l.id !in failed
    ensures !l.paused && l.id !in failed ==> Runs(e, l, active)
  {
  }

  /** The listener runs its current configuration. */
  predicate Runs(e: Env, l: Listener, active: map<nat, Active>) {
    l.id in active && e.hash(l) == Some(active[l.id].hash)
  }

  /** Ready means that every unpaused listener runs its current configuration and none has a failure on record. */
  lemma ReadyMeansRunning(
      e: Env, s: Snapshot, now: int, a: map<nat, Active>, f: map<nat, Failure>,
      active: map<nat, Active>, failed: map<nat, Failure>, status: Status)
    requires Completed(e, s, now, a, f, active, failed, status)
    ensures status.ready <==>
            && failed == map[]
            && forall j | 0 <= j < |s.listeners| && !s.listeners[j].paused :: Runs(e, s.listeners[j], active)
  {
    forall j | 0 <= j < |s.listeners|
      ensures Healthy(status.entries[s.listeners[j].id]) <==> s.listeners[j].id !in failed
      ensures !s.listeners[j].paused && s.listeners[j].id !in failed ==> Runs(e, s.listeners[j], active)
    {
      var l := s.listeners[j];
      assert Brought(e, l, now, Lookup(a, l.id), Lookup(f, l.id), Lookup(active, l.id), Lookup(failed, l.id));
      HealthyIsBrought(e, l, now, Lookup(a, l.id), Lookup(f, l.id), active, failed, status.entries[l.id]);
    }
    if status.ready {
      forall id ensures id !in failed {}
    }
  }

  function IdsOf(ls: seq<Listener>): set<nat> {
    set l | l in ls :: l.id
  }

  function Kept<T>(m: map<nat, T>, desired: set<nat>): map<nat, T> {
    map id | id in m && id in desired :: m[id]
  }

  function Surviving(active: map<nat, Active>, exited: nat -> bool): map<nat, Active> {
    map id | id in active && !exited(active[id].handle) :: active[id]
  }
}
