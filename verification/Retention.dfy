/** Retention: bounded prunes of events whose every delivery is old and done. */
module Retention {
  import opened Common
  import opened Records
  import opened OrderBy
  import L = Ledger
  import Outbox

  // ------------------------------------------------------------ one bounded prune

  predicate Done(row: Outbox.Row, cutoff: int) {
    row.status == Outbox.Delivered && row.deliveredAt.Some? && row.deliveredAt.value < cutoff
  }

  /** It has a delivery, and every delivery was made before the cutoff. */
  predicate Eligible(l: L.Ledger, cutoff: int, id: EventId) {
    && id in l.events
    && (exists k | k in l.deliveries :: k.event == id)
    && (forall k | k in l.deliveries && k.event == id :: Done(l.deliveries[k], cutoff))
  }

  function SortKeyOf(l: L.Ledger, id: EventId): SortKey
    requires id in l.events
  {
    SortKey(l.events[id].observedAt, id.tx, id.logIndex, 0)
  }

  function IdOfKey(s: SortKey): EventId {
    EventId(s.tx, s.index)
  }

  function EligibleKeys(l: L.Ledger, cutoff: int): set<SortKey> {
    set id | id in l.events && Eligible(l, cutoff, id) :: SortKeyOf(l, id)
  }

  function IdsIn(keys: seq<SortKey>): set<EventId> {
    set s | s in keys :: IdOfKey(s)
  }

  /** DELETE of the oldest `limit` eligible events; their outbox rows go with them. */
  function Pruned(l: L.Ledger, cutoff: int, limit: nat): L.Ledger {
    L.DeleteEvents(l, IdsIn(Take(EligibleKeys(l, cutoff), limit)))
  }

  lemma KeyMeansEligible(l: L.Ledger, cutoff: int, s: SortKey)
    requires s in EligibleKeys(l, cutoff)
    ensures Eligible(l, cutoff, IdOfKey(s)) && SortKeyOf(l, IdOfKey(s)) == s
  {
  }

  lemma EligibleHasKey(l: L.Ledger, cutoff: int, id: EventId)
    requires Eligible(l, cutoff, id)
    ensures SortKeyOf(l, id) in EligibleKeys(l, cutoff) && IdOfKey(SortKeyOf(l, id)) == id
  {
  }

  /** An event is taken iff its key is. */
  lemma TakenIffKeyTaken(l: L.Ledger, cutoff: int, limit: nat, id: EventId)
    requires id in l.events
    ensures id in IdsIn(Take(EligibleKeys(l, cutoff), limit)) <==>
            SortKeyOf(l, id) in Take(EligibleKeys(l, cutoff), limit)
  {
    var taken := Take(EligibleKeys(l, cutoff), limit);
    TakeCounts(EligibleKeys(l, cutoff), limit);
    if id in IdsIn(taken) {
      var s :| s in taken && IdOfKey(s) == id;
      assert s in Elements(taken);
      KeyMeansEligible(l, cutoff, s);
    }
  }

  function EligibleIds(l: L.Ledger, cutoff: int): set<EventId> {
    set id | id in l.events && Eligible(l, cutoff, id)
  }

  function Lesser(a: nat, b: nat): nat {
    if a <= b then a else b
  }

  ghost function IdsOf(keys: set<SortKey>): set<EventId> {
    set s | s in keys :: IdOfKey(s)
  }

  /** An eligible event has one key, so there are as many ids as keys. */
  lemma {:induction false} KeysCountIds(l: L.Ledger, cutoff: int, keys: set<SortKey>)
    requires keys <= EligibleKeys(l, cutoff)
    ensures |IdsOf(keys)| == |keys|
    decreases |keys|
  {
    if keys != {} {
      var s :| s in keys;
      KeysCountIds(l, cutoff, keys - {s});
      assert IdOfKey(s) !in IdsOf(keys - {s}) by {
        forall x | x in keys - {s} ensures IdOfKey(x) != IdOfKey(s) {
          KeyMeansEligible(l, cutoff, x);
          KeyMeansEligible(l, cutoff, s);
        }
      }
      assert IdsOf(keys) == IdsOf(keys - {s}) + {IdOfKey(s)};
    }
  }

  lemma EligibleCount(l: L.Ledger, cutoff: int)
    ensures |EligibleIds(l, cutoff)| == |EligibleKeys(l, cutoff)|
  {
    var keys := EligibleKeys(l, cutoff);
    forall id ensures id in EligibleIds(l, cutoff) <==> id in IdsOf(keys) {
      if id in EligibleIds(l, cutoff) { EligibleHasKey(l, cutoff, id); }
    }
    assert EligibleIds(l, cutoff) == IdsOf(keys);
    KeysCountIds(l, cutoff, keys);
  }

  lemma TakenCount(s: set<SortKey>, limit: nat)
    ensures |Elements(Take(s, limit))| == Lesser(limit, |s|) && Elements(Take(s, limit)) <= s
  {
    TakeCounts(s, limit);
    TakeRemoves(s, limit);
    var taken := Elements(Take(s, limit));
    assert s == taken + (s - taken);
  }

  /** A prune deletes as many events as are eligible, up to the limit. */
  lemma PruneCounts(l: L.Ledger, cutoff: int, limit: nat)
    ensures |l.events.Keys - Pruned(l, cutoff, limit).events.Keys| == Lesser(limit, |EligibleIds(l, cutoff)|)
  {
    var keys := EligibleKeys(l, cutoff);
    var taken := Elements(Take(keys, limit));
    TakenCount(keys, limit);
    KeysCountIds(l, cutoff, taken);
    EligibleCount(l, cutoff);
    var gone := l.events.Keys - Pruned(l, cutoff, limit).events.Keys;
    forall id ensures id in gone <==> id in IdsOf(taken) {
      if id in IdsOf(taken) {
        var s :| s in taken && IdOfKey(s) == id;
        assert s in Take(keys, limit);
        KeyMeansEligible(l, cutoff, s);
      }
    }
    assert gone == IdsOf(taken);
  }

  /** As many events go as the query selects. */
  lemma SelectedAreGone(l: L.Ledger, cutoff: int, limit: nat)
    ensures |l.events.Keys - Pruned(l, cutoff, limit).events.Keys| == |Take(EligibleKeys(l, cutoff), limit)|
  {
    PruneCounts(l, cutoff, limit);
    EligibleCount(l, cutoff);
    TakeCounts(EligibleKeys(l, cutoff), limit);
  }

  /** The event has a delivery, and none that is pending, dead or too recent. */
  predicate Settled(l: L.Ledger, cutoff: int, id: EventId) {
    && (exists k | k in l.deliveries :: k.event == id)
    && (forall k | k in l.deliveries && k.event == id ::
          l.deliveries[k].status == Outbox.Delivered
          && match l.deliveries[k].deliveredAt case Some(at) => at < cutoff case None => false)
  }

  /** Observed earlier, or at the same time and first by transaction and log index. */
  predicate Older(l: L.Ledger, x: EventId, y: EventId)
    requires x in l.events && y in l.events
  {
    || l.events[x].observedAt < l.events[y].observedAt
    || (l.events[x].observedAt == l.events[y].observedAt
        && (x.tx < y.tx || (x.tx == y.tx && x.logIndex < y.logIndex)))
  }

  function SettledIds(l: L.Ledger, cutoff: int): set<EventId> {
    set id | id in l.events && Settled(l, cutoff, id)
  }

  /** Gone are the oldest min(limit, settled) settled events, `count` of them, with their rows; the rest stands. */
  ghost predicate OldestGone(l: L.Ledger, m: L.Ledger, cutoff: int, limit: nat, count: nat) {
    match m
    case Ledger(checkpoint, canonical, events, _) =>
      && checkpoint == l.checkpoint && canonical == l.canonical
      && count == |l.events.Keys - events.Keys| == Lesser(limit, |SettledIds(l, cutoff)|)
      && OldestFirst(l, events, cutoff) && RestStands(l, m)
  }

  ghost predicate OldestFirst(l: L.Ledger, kept: L.EventTable, cutoff: int) {
    && (forall id | id in l.events && id !in kept :: Settled(l, cutoff, id))
    && (forall x, y | x in l.events && x !in kept && y in l.events && y in kept && Settled(l, cutoff, y) ::
          Older(l, x, y))
  }

  ghost predicate RestStands(l: L.Ledger, m: L.Ledger) {
    && (forall id | id in m.events :: id in l.events && m.events[id] == l.events[id])
    && (L.NoOrphanRows(l) ==> forall k :: k in m.deliveries <==> k in l.deliveries && k.event in m.events)
    && (forall k | k in m.deliveries :: k in l.deliveries && m.deliveries[k] == l.deliveries[k])
  }

  lemma DeletionLeavesTheRest(l: L.Ledger, gone: set<EventId>)
    ensures RestStands(l, L.DeleteEvents(l, gone))
  {
  }

  lemma EligibleIsSettled(l: L.Ledger, cutoff: int)
    ensures forall id | id in l.events :: Eligible(l, cutoff, id) <==> Settled(l, cutoff, id)
    ensures EligibleIds(l, cutoff) == SettledIds(l, cutoff)
  {
  }

  /** A prune deletes exactly the oldest min(limit, settled) settled events and their outbox rows. */
  lemma PruneDeletesOldest(l: L.Ledger, cutoff: int, limit: nat)
    ensures OldestGone(l, Pruned(l, cutoff, limit), cutoff, limit, |Take(EligibleKeys(l, cutoff), limit)|)
  {
    PruneCounts(l, cutoff, limit);
    SelectedAreGone(l, cutoff, limit);
    EligibleIsSettled(l, cutoff);
    DeletionLeavesTheRest(l, IdsIn(Take(EligibleKeys(l, cutoff), limit)));
    PruneIsOldestFirst(l, cutoff, limit);
  }

  lemma PruneOfEligible(l: L.Ledger, cutoff: int, limit: nat)
    requires limit <= |EligibleIds(l, cutoff)|
    ensures |EligibleIds(l, cutoff)| == |SettledIds(l, cutoff)|
    ensures OldestGone(l, Pruned(l, cutoff, limit), cutoff, limit, limit)
  {
    EligibleCount(l, cutoff);
    EligibleIsSettled(l, cutoff);
    TakeCounts(EligibleKeys(l, cutoff), limit);
    PruneDeletesOldest(l, cutoff, limit);
  }

  lemma PruneIsOldestFirst(l: L.Ledger, cutoff: int, limit: nat)
    ensures OldestFirst(l, Pruned(l, cutoff, limit).events, cutoff)
  {
    var kept := Pruned(l, cutoff, limit).events;
    EligibleIsSettled(l, cutoff);
    forall id | id in l.events && id !in kept ensures Settled(l, cutoff, id) {
      TakenIsEligible(l, cutoff, limit, id);
    }
    forall x, y | x in l.events && x !in kept && y in l.events && y in kept && Settled(l, cutoff, y)
      ensures Older(l, x, y)
    {
      TakenIsOlder(l, cutoff, limit, x, y);
    }
  }

  lemma TakenIsEligible(l: L.Ledger, cutoff: int, limit: nat, id: EventId)
    requires id in l.events && id !in Pruned(l, cutoff, limit).events
    ensures Eligible(l, cutoff, id)
  {
    var keys := EligibleKeys(l, cutoff);
    TakeIsTheQuery(keys, limit);
    TakenIffKeyTaken(l, cutoff, limit, id);
    assert SortKeyOf(l, id) in Elements(Take(keys, limit));
    KeyMeansEligible(l, cutoff, SortKeyOf(l, id));
  }

  lemma TakenIsOlder(l: L.Ledger, cutoff: int, limit: nat, x: EventId, y: EventId)
    requires x in l.events && x !in Pruned(l, cutoff, limit).events
    requires y in Pruned(l, cutoff, limit).events && Eligible(l, cutoff, y)
    ensures Older(l, x, y)
  {
    TakeIsTheQuery(EligibleKeys(l, cutoff), limit);
    TakenIffKeyTaken(l, cutoff, limit, x);
    TakenIffKeyTaken(l, cutoff, limit, y);
    EligibleHasKey(l, cutoff, y);
    assert Le(SortKeyOf(l, x), SortKeyOf(l, y)) && x != y;
  }

  /** The events a prune leaves are as eligible as they were. */
  lemma EligibleAfter(l: L.Ledger, cutoff: int, limit: nat)
    ensures var keys := EligibleKeys(l, cutoff);
            EligibleKeys(Pruned(l, cutoff, limit), cutoff) == keys - Elements(Take(keys, limit))
  {
    var keys := EligibleKeys(l, cutoff);
    var m := Pruned(l, cutoff, limit);
    var gone := IdsIn(Take(keys, limit));
    forall s ensures s in EligibleKeys(m, cutoff) <==> s in keys && s !in Elements(Take(keys, limit)) {
      var id := IdOfKey(s);
      if id in l.events {
        TakenIffKeyTaken(l, cutoff, limit, id);
        SameEligibility(l, cutoff, gone, id);
      }
    }
  }

  lemma SameEligibility(l: L.Ledger, cutoff: int, gone: set<EventId>, id: EventId)
    requires id in l.events
    ensures Eligible(L.DeleteEvents(l, gone), cutoff, id) <==> Eligible(l, cutoff, id) && id !in gone
  {
    var m := L.DeleteEvents(l, gone);
    if id !in gone {
      assert forall k: Outbox.Key | k.event == id :: k in m.deliveries <==> k in l.deliveries;
    }
  }

  /** Two bounded prunes in a row are one prune of the combined limit. */
  lemma PruneInTwo(l: L.Ledger, cutoff: int, a: nat, b: nat)
    ensures Pruned(Pruned(l, cutoff, a), cutoff, b) == Pruned(l, cutoff, a + b)
  {
    var keys := EligibleKeys(l, cutoff);
    EligibleAfter(l, cutoff, a);
    TakeInTwo(keys, a, b);
    var first, second := IdsIn(Take(keys, a)), IdsIn(Take(keys - Elements(Take(keys, a)), b));
    assert IdsIn(Take(keys, a + b)) == first + second;
    DeleteInTwo(l, first, second);
  }

  lemma DeleteInTwo(l: L.Ledger, first: set<EventId>, second: set<EventId>)
    ensures L.DeleteEvents(L.DeleteEvents(l, first), second) == L.DeleteEvents(l, first + second)
  {
    var x, y := L.DeleteEvents(L.DeleteEvents(l, first), second), L.DeleteEvents(l, first + second);
    assert x.events == y.events;
    assert x.deliveries == y.deliveries;
  }

  lemma PruneNothing(l: L.Ledger, cutoff: int)
    ensures Pruned(l, cutoff, 0) == l
  {
    var m := Pruned(l, cutoff, 0);
    assert m.events == l.events && m.deliveries == l.deliveries;
  }

  /** A prune whose limit exceeds what is eligible leaves nothing eligible. */
  lemma PruneAll(l: L.Ledger, cutoff: int, limit: nat)
    requires |EligibleKeys(l, cutoff)| <= limit
    ensures forall id :: !Eligible(Pruned(l, cutoff, limit), cutoff, id)
  {
    var m := Pruned(l, cutoff, limit);
    EligibleAfter(l, cutoff, limit);
    TakeAll(EligibleKeys(l, cutoff), limit);
    forall id ensures !Eligible(m, cutoff, id) {
      if Eligible(m, cutoff, id) {
        EligibleHasKey(m, cutoff, id);
      }
    }
  }

  /** How many events the next batch finds. */
  lemma BatchCounts(l: L.Ledger, cutoff: int, deleted: nat, limit: nat)
    requires deleted <= |EligibleKeys(l, cutoff)|
    ensures var n := |EligibleKeys(l, cutoff)| - deleted;
            |Take(EligibleKeys(Pruned(l, cutoff, deleted), cutoff), limit)| == if n <= limit then n else limit
  {
    var keys := EligibleKeys(l, cutoff);
    EligibleAfter(l, cutoff, deleted);
    TakeCounts(keys, deleted);
    TakeRemoves(keys, deleted);
    TakeCounts(keys - Elements(Take(keys, deleted)), limit);
  }

  /** A limit beyond what is eligible prunes no more than what is eligible. */
  lemma PruneBeyond(l: L.Ledger, cutoff: int, limit: nat)
    ensures |EligibleKeys(l, cutoff)| <= limit ==>
              Pruned(l, cutoff, limit) == Pruned(l, cutoff, |EligibleKeys(l, cutoff)|)
  {
    var keys := EligibleKeys(l, cutoff);
    if |keys| <= limit {
      TakeAll(keys, limit);
      TakeAll(keys, |keys|);
      assert IdsIn(Take(keys, limit)) == IdsIn(Take(keys, |keys|)) by {
        forall s ensures s in Take(keys, limit) <==> s in Take(keys, |keys|) {
          assert s in Take(keys, limit) <==> s in Elements(Take(keys, limit));
          assert s in Take(keys, |keys|) <==> s in Elements(Take(keys, |keys|));
        }
      }
    }
  }

  /** One more batch after `deleted` events are gone. */
  lemma NextBatch(l: L.Ledger, cutoff: int, deleted: nat, limit: nat)
    requires deleted <= |EligibleKeys(l, cutoff)|
    ensures var m, n := Pruned(l, cutoff, deleted), |EligibleKeys(l, cutoff)| - deleted;
            var count := if n <= limit then n else limit;
            && |Take(EligibleKeys(m, cutoff), limit)| == count
            && Pruned(m, cutoff, limit) == Pruned(l, cutoff, deleted + count)
  {
    BatchCounts(l, cutoff, deleted, limit);
    PruneInTwo(l, cutoff, deleted, limit);
    PruneBeyond(l, cutoff, deleted + limit);
  }
}

/** The retention service: one prune at a time, in batches. */
module RetentionService {
  import opened Common
  import opened Records
  import L = Ledger
  import opened Retention
  import opened Storage

  datatype Outcome = Outcome(eligible: nat, deleted: nat)

  /** How many events one call removes: the maximum, all of them when it is zero, none when negative. */
  function Quota(eligible: nat, maximum: int): nat {
    if maximum == 0 then eligible else if maximum < 0 then 0 else if eligible < maximum then eligible else maximum
  }

  class Service {
    const store: Store
    var running: bool
    var last: Option<Outcome>

    constructor (store: Store)
      ensures this.store == store && !running && last == None
    {
      this.store, running, last := store, false, None;
    }

    /** Prune in batches until the maximum is reached or nothing eligible is left. */
    method Prune(cutoff: int, batchSize: int, maximum: int) returns (r: Result<Outcome, Error>)
      modifies this`running, this`last, store`events, store`deliveries
      ensures batchSize <= 0 || old(running) ==>
                r.Err? && store.State() == old(store.State()) && running == old(running) && last == old(last)
      ensures batchSize > 0 && !old(running) ==>
                && r.Ok? && !running && last == Some(r.value)
                && r.value.eligible == |SettledIds(old(store.State()), cutoff)|
                && (maximum == 0 ==> r.value.deleted == r.value.eligible)
                && (maximum < 0 ==> r.value.deleted == 0)
                && (maximum > 0 ==> r.value.deleted == Lesser(maximum, r.value.eligible))
                && OldestGone(old(store.State()), store.State(), cutoff, r.value.deleted, r.value.deleted)
                && store.State() == Pruned(old(store.State()), cutoff, r.value.deleted)
    {
      if batchSize <= 0 {
        return Err(InvalidLimit);
      }
      if running {
        return Err(AlreadyRunning);
      }
      running := true;
      var l := L.Ledger(store.checkpoint, store.canonical, store.events, store.deliveries);
      EligibleCount(l, cutoff);
      var eligible := |EligibleIds(l, cutoff)|;
      var deleted := PruneBatches(cutoff, batchSize, maximum, eligible);
      PruneOfEligible(l, cutoff, deleted);
      running := false;
      last := Some(Outcome(eligible, deleted));
      r := Ok(Outcome(eligible, deleted));
    }

    method PruneBatches(cutoff: int, batchSize: int, maximum: int, ghost eligible: nat) returns (deleted: nat)
      requires batchSize > 0 && eligible == |EligibleKeys(store.State(), cutoff)|
      modifies store`events, store`deliveries
      ensures deleted == Quota(eligible, maximum)
      ensures store.State() == Pruned(old(store.State()), cutoff, deleted)
    {
      deleted := 0;
      ghost var l := store.State();
      PruneNothing(l, cutoff);
      while maximum == 0 || deleted < maximum
        invariant deleted <= eligible && (maximum != 0 ==> deleted <= Quota(eligible, maximum))
        invariant store.State() == Pruned(l, cutoff, deleted)
        decreases eligible - deleted
      {
        var limit := batchSize;
        if maximum > 0 && limit > maximum - deleted {
          limit := maximum - deleted;
        }
        ghost var before := store.State();
        NextBatch(l, cutoff, deleted, limit);
        var count := store.PruneDeliveredBefore(cutoff, limit);
        assert store.State() == Pruned(before, cutoff, limit);
        deleted := deleted + count.value;
        if count.value < limit {
          break;
        }
      }
    }
  }
}
