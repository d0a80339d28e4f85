/** The SQLite store, one object whose transactions run one at a time. */
module Storage {
  import opened Common
  import opened Chain
  import opened Records
  import opened L = Ledger
  import Outbox
  import OrderBy
  import Retention

  datatype RequeueAudit = RequeueAudit(key: Outbox.Key, previousAttempts: nat, at: int)

  class Store {
    var checkpoint: Option<Checkpoint>
    var canonical: History
    var events: EventTable
    var deliveries: Outbox.Table
    var requeueAudit: seq<RequeueAudit>

    ghost function State(): Ledger
      reads this
    {
      Ledger(checkpoint, canonical, events, deliveries)
    }

    constructor ()
      ensures State() == EMPTY && requeueAudit == []
    {
      checkpoint, canonical, events, deliveries, requeueAudit := None, map[], map[], map[], [];
    }

    // ------------------------------------------------------ scanner's calls

    /** All rows of a batch and its checkpoint commit together, or nothing does. */
    method SaveBatch(b: Persist, retain: nat) returns (r: Result<(), Error>)
      modifies this`checkpoint, this`canonical, this`events, this`deliveries
      ensures match L.SaveBatch(old(State()), b, retain)
              case Ok(l) => r.Ok? && State() == l
              case Err(e) => r == Err(e) && State() == old(State())
      ensures r.Ok? ==>
                && Saved(old(State()), State(), b)
                && HistorySaved(old(canonical), canonical, b, retain)
                && CheckpointSaved(old(checkpoint), checkpoint, b.checkpoint)
    {
      SaveBatchMeans(State(), b, retain);
      if b.checkpoint.number > MAX_INT64 {
        return Err(OutOfRange);
      }
      var inserted, txEvents := InsertRows(b.rows);
      if inserted.Err? {
        return Err(inserted.error);
      }
      var txDeliveries := InsertOutbox(b, inserted.value);
      if txDeliveries.Err? {
        return Err(txDeliveries.error);
      }
      var txCanonical := UpsertHistory(b.blocks);
      if txCanonical.Err? {
        return Err(txCanonical.error);
      }
      events, deliveries := txEvents, txDeliveries.value;
      checkpoint := Advance(checkpoint, b.checkpoint);
      canonical := Retained(txCanonical.value, b.checkpoint, retain);
      r := Ok(());
    }

    method InsertRows(rows: seq<EventRow>) returns (r: Result<set<EventId>, Error>, table: EventTable)
      ensures match InsertEvents(events, rows)
              case Ok(i) => r == Ok(i.added) && table == i.table
              case Err(e) => r == Err(e)
    {
      table := events;
      var insertedEvents: set<EventId> := {};
      for i := 0 to |rows|
        invariant InsertEvents(events, rows[..i]) == Ok(Inserted(table, insertedEvents))
      {
        assert rows[..i + 1][..i] == rows[..i];
        var one := InsertEvent(table, rows[i]);
        if one.Err? {
          InsertFailsLater(events, rows, i + 1);
          return Err(one.error), table;
        }
        table := one.value.table;
        insertedEvents := insertedEvents + one.value.added;
      }
      assert rows[..|rows|] == rows;
      r := Ok(insertedEvents);
    }

    method InsertOutbox(b: Persist, inserted: set<EventId>) returns (r: Result<Outbox.Table, Error>)
      ensures r == InsertDeliveries(deliveries, b.deliveries, Ids(b.rows), inserted)
    {
      var batchEvents := Ids(b.rows);
      var table := deliveries;
      for i := 0 to |b.deliveries|
        invariant InsertDeliveries(deliveries, b.deliveries[..i], batchEvents, inserted) == Ok(table)
      {
        assert b.deliveries[..i + 1][..i] == b.deliveries[..i];
        if b.deliveries[i].event !in batchEvents {
          DeliveriesFailLater(deliveries, b.deliveries, batchEvents, inserted, i + 1);
          return Err(UnknownEvent);
        }
        if b.deliveries[i].event in inserted {
          table := Outbox.Insert(table, KeyFor(b.deliveries[i]), RowFor(b.deliveries[i]));
        }
      }
      assert b.deliveries[..|b.deliveries|] == b.deliveries;
      r := Ok(table);
    }

    method UpsertHistory(blocks: seq<CanonicalBlock>) returns (r: Result<History, Error>)
      ensures r == UpsertBlocks(canonical, blocks)
    {
      var table := canonical;
      for i := 0 to |blocks|
        invariant UpsertBlocks(canonical, blocks[..i]) == Ok(table)
      {
        assert blocks[..i + 1][..i] == blocks[..i];
        if HashElsewhere(table, blocks[i]) {
          UpsertFailsLater(canonical, blocks, i + 1);
          return Err(DuplicateBlockHash);
        }
        table := table[blocks[i].number := blocks[i]];
      }
      assert blocks[..|blocks|] == blocks;
      r := Ok(table);
    }

    method RewindCanonical(from: nat, ancestor: Hash)
      modifies this`checkpoint, this`canonical, this`events, this`deliveries
      ensures State() == L.RewindCanonical(old(State()), from, ancestor)
      ensures Cut(old(State()), State(), from)
      ensures checkpoint == if from == 0 || old(checkpoint).None? then None else Some(Checkpoint(from - 1, ancestor))
    {
      DeleteBlocksFrom(from);
      if from == 0 {
        checkpoint := None;
      } else if checkpoint.Some? {
        checkpoint := Some(Checkpoint(from - 1, ancestor));
      }
    }

    method DeleteBlocksFrom(from: nat)
      modifies this`canonical, this`events, this`deliveries
      ensures State() == DeleteFrom(old(State()), from) && Cut(old(State()), State(), from)
    {
      var gone := EventsAt(events, from);
      events := map id | id in events && id !in gone :: events[id];
      deliveries := Outbox.Cascade(deliveries, gone);
      canonical := map n | n in canonical && n < from :: canonical[n];
    }

    method ResetFrom(from: nat) returns (r: Result<(), Error>)
      modifies this`checkpoint, this`canonical, this`events, this`deliveries
      ensures match L.ResetFrom(old(State()), from)
              case Ok(l) => r.Ok? && State() == l
              case Err(e) => r == Err(e) && State() == old(State())
      ensures r.Ok? <==> from <= MAX_INT64 && old(checkpoint).Some?
      ensures r.Ok? ==> Cut(old(State()), State(), from) && checkpoint.None?
    {
      if from > MAX_INT64 {
        return Err(OutOfRange);
      }
      if checkpoint.None? {
        return Err(CheckpointMissing);
      }
      DeleteBlocksFrom(from);
      checkpoint := None;
      r := Ok(());
    }

    // ------------------------------------------------------- worker's calls

    /** Lease the earliest due rows, each under its own fresh token. */
    method ClaimDueDeliveries(now: int, lease: int, limit: int, tokens: seq<Outbox.Token>)
      returns (r: Result<seq<Outbox.Key>, Error>)
      requires limit <= |tokens|
      modifies this`deliveries
      ensures limit <= 0 || lease <= 0 ==> r.Err? && deliveries == old(deliveries)
      ensures limit > 0 && lease > 0 ==>
                && r == Ok(Outbox.SelectDue(old(deliveries), now, limit))
                && |r.value| <= limit
                && deliveries == Outbox.ClaimAll(old(deliveries), r.value, now, lease, tokens)
                && Claimed(old(deliveries), deliveries, r.value, now, lease, tokens)
                && EarliestDue(old(deliveries), r.value, now, limit)
    {
      if limit <= 0 || lease <= 0 {
        return Err(InvalidLimit);
      }
      var keys := Outbox.SelectDue(deliveries, now, limit);
      Outbox.SelectedIsDue(deliveries, now, limit);
      assert Outbox.AllDue(deliveries, keys, now);
      var table := deliveries;
      var items: seq<Outbox.Key> := [];
      for i := 0 to |keys|
        invariant deliveries == old(deliveries) && items == keys[..i]
        invariant table == Outbox.ClaimAll(deliveries, keys[..i], now, lease, tokens)
      {
        Outbox.ClaimNext(deliveries, keys, now, lease, tokens, i);
        var k := keys[i];
        if k in table && Outbox.Due(table[k], now) {
          table := table[k := Outbox.Leased(table[k], now, lease, tokens[i])];
          items := items + [k];
        }
      }
      assert keys[..|keys|] == keys;
      ClaimMeans(deliveries, now, lease, limit, tokens);
      deliveries := table;
      r := Ok(items);
    }

    /** The lease-guarded update behind MarkDeliveryDelivered, ScheduleDeliveryRetry and MarkDeliveryDead. */
    method Transition(k: Outbox.Key, token: Outbox.Token, to: Outbox.Resolution) returns (r: Result<(), Error>)
      modifies this`deliveries
      ensures deliveries == Outbox.Resolve(old(deliveries), k, token, to)
      ensures r.Ok? <==> token != Outbox.NO_TOKEN && k in old(deliveries)
                         && old(deliveries)[k].token == token && old(deliveries)[k].status == Outbox.Pending
      ensures deliveries.Keys == old(deliveries).Keys
      ensures forall x | x in deliveries && (x != k || r.Err?) :: deliveries[x] == old(deliveries)[x]
      ensures r.Ok? ==> Transitioned(old(deliveries)[k], deliveries[k], to)
    {
      if token == Outbox.NO_TOKEN {
        return Err(MissingToken);
      }
      if k !in deliveries || deliveries[k].token != token || deliveries[k].status != Outbox.Pending {
        return Err(NotFound);
      }
      deliveries := deliveries[k := Outbox.ResolvedRow(deliveries[k], to)];
      r := Ok(());
    }

    method RequeueDeadDeliveryAudited(k: Outbox.Key, now: int) returns (r: Result<RequeueAudit, Error>)
      modifies this`deliveries, this`requeueAudit
      ensures deliveries == Outbox.Requeue(old(deliveries), k, now, true)
      ensures deliveries.Keys == old(deliveries).Keys
      ensures forall x | x in deliveries && (x != k || r.Err?) :: deliveries[x] == old(deliveries)[x]
      ensures r.Ok? <==> k in old(deliveries) && old(deliveries)[k].status == Outbox.Dead
      ensures r.Ok? ==> Revived(old(deliveries)[k], deliveries[k], now) && deliveries[k].lastStatus.None?
      ensures requeueAudit == old(requeueAudit) + (if r.Ok? then [r.value] else [])
      ensures r.Ok? ==> r.value == RequeueAudit(k, old(deliveries)[k].attempts, now)
    {
      if k !in deliveries || deliveries[k].status != Outbox.Dead {
        return Err(NotFound);
      }
      var entry := RequeueAudit(k, deliveries[k].attempts, now);
      deliveries := deliveries[k := Outbox.RequeuedRow(deliveries[k], now, true)];
      requeueAudit := requeueAudit + [entry];
      r := Ok(entry);
    }

    method RequeueAllDead(now: int)
      modifies this`deliveries
      ensures deliveries.Keys == old(deliveries).Keys
      ensures forall k | k in deliveries :: deliveries[k] == Outbox.Requeue(old(deliveries), k, now, false)[k]
      ensures forall k | k in deliveries ::
                if old(deliveries)[k].status == Outbox.Dead
                then Revived(old(deliveries)[k], deliveries[k], now)
                     && deliveries[k].lastStatus == old(deliveries)[k].lastStatus
                else deliveries[k] == old(deliveries)[k]
    {
      deliveries := map k | k in deliveries ::
        if deliveries[k].status == Outbox.Dead then Outbox.RequeuedRow(deliveries[k], now, false) else deliveries[k];
    }

    /** Delete the oldest eligible events, at most `limit` of them, with their outbox rows. */
    method PruneDeliveredBefore(cutoff: int, limit: int) returns (r: Result<nat, Error>)
      modifies this`events, this`deliveries
      ensures limit <= 0 ==> r.Err? && State() == old(State())
      ensures limit > 0 ==>
                && r == Ok(|OrderBy.Take(Retention.EligibleKeys(old(State()), cutoff), limit)|)
                && State() == Retention.Pruned(old(State()), cutoff, limit)
    {
      if limit <= 0 {
        return Err(InvalidLimit);
      }
      var l := Ledger(checkpoint, canonical, events, deliveries);
      var oldest := OrderBy.Take(Retention.EligibleKeys(l, cutoff), limit);
      var kept := DeleteEvents(l, Retention.IdsIn(oldest));
      events, deliveries := kept.events, kept.deliveries;
      r := Ok(|oldest|);
    }
  }

  // ------------------------------------------------- rows, field by field

  /** Each claimed row is leased under its own token until the lease runs out, and counted; the others stand. */
  ghost predicate Claimed(
      t: Outbox.Table, t': Outbox.Table, keys: seq<Outbox.Key>, now: int, lease: int, tokens: seq<Outbox.Token>)
    requires |keys| <= |tokens|
  {
    && t'.Keys == t.Keys
    && (forall i | 0 <= i < |keys| :: keys[i] in t && LeasedRow(t[keys[i]], t'[keys[i]], now, lease, tokens[i]))
    && (forall k | k in t && k !in keys :: t'[k] == t[k])
  }

  predicate LeasedRow(row: Outbox.Row, row': Outbox.Row, now: int, lease: int, token: Outbox.Token) {
    && row.status == Outbox.Pending && row.nextAttempt <= now
    && row'.status == Outbox.Pending && row'.token == token && row'.nextAttempt == now + lease
    && row'.attempts == row.attempts + 1 && row'.total == row.total + 1 && row'.lastAttemptAt == Some(now)
    && row'.authentication == row.authentication && row'.lastStatus == row.lastStatus
    && row'.lastError == row.lastError && row'.deliveredAt == row.deliveredAt
  }

  /** The claimed rows are the earliest due ones, in order; a due row is left only when the limit is reached. */
  ghost predicate EarliestDue(t: Outbox.Table, keys: seq<Outbox.Key>, now: int, limit: int) {
    && (forall k | k in keys :: k in t)
    && (forall i, j | 0 <= i < j < |keys| :: Outbox.DueEarlier(t, keys[i], keys[j]))
    && (forall k | k in t && t[k].status == Outbox.Pending && t[k].nextAttempt <= now && k !in keys ::
          |keys| == limit && forall j | j in keys :: Outbox.DueEarlier(t, j, k))
  }

  lemma ClaimMeans(t: Outbox.Table, now: int, lease: int, limit: int, tokens: seq<Outbox.Token>)
    requires 0 < limit <= |tokens| && lease > 0
    ensures var keys := Outbox.SelectDue(t, now, limit);
            && |keys| <= limit && EarliestDue(t, keys, now, limit)
            && Claimed(t, Outbox.ClaimAll(t, keys, now, lease, tokens), keys, now, lease, tokens)
  {
    var keys := Outbox.SelectDue(t, now, limit);
    Outbox.SelectedIsDue(t, now, limit);
    Outbox.ClaimAllLeases(t, keys, now, lease, tokens);
    forall i, j | 0 <= i < j < |keys| ensures Outbox.DueEarlier(t, keys[i], keys[j]) {
      Outbox.SelectedInOrder(t, now, limit, i, j);
    }
    forall k | k in t && t[k].status == Outbox.Pending && t[k].nextAttempt <= now && k !in keys
      ensures |keys| == limit && forall j | j in keys :: Outbox.DueEarlier(t, j, k)
    {
      Outbox.SelectedAreEarliest(t, now, limit, k);
    }
  }

  /** What each resolution writes; every resolution ends the lease and leaves the counters. */
  predicate Transitioned(row: Outbox.Row, row': Outbox.Row, to: Outbox.Resolution) {
    && row'.token == Outbox.NO_TOKEN && row'.attempts == row.attempts && row'.total == row.total
    && row'.authentication == row.authentication && row'.lastAttemptAt == row.lastAttemptAt
    && row'.lastStatus == (if 100 <= to.code <= 599 then Some(to.code) else None)
    && match to
       case Success(at, _) =>
         && row'.status == Outbox.Delivered && row'.deliveredAt == Some(at) && row'.lastError == Outbox.NO_ERROR
         && row'.nextAttempt == row.nextAttempt
       case Retry(next, message, _) =>
         && row'.status == Outbox.Pending && row'.nextAttempt == next && row'.lastError == message
         && row'.deliveredAt == row.deliveredAt
       case GiveUp(message, _) =>
         && row'.status == Outbox.Dead && row'.nextAttempt == row.nextAttempt && row'.lastError == message
         && row'.deliveredAt == row.deliveredAt
  }

  /** A requeued row is due at once, unleased and uncounted; only its lifetime counter remembers. */
  predicate Revived(row: Outbox.Row, row': Outbox.Row, now: int) {
    && row'.status == Outbox.Pending && row'.nextAttempt == now && row'.attempts == 0 && row'.token == Outbox.NO_TOKEN
    && row'.total == row.total && row'.authentication == row.authentication
    && row'.lastError == Outbox.NO_ERROR && row'.deliveredAt.None? && row'.lastAttemptAt == row.lastAttemptAt
  }

  ghost predicate NamesHeight(blocks: seq<CanonicalBlock>, n: nat) {
    exists i :: 0 <= i < |blocks| && blocks[i].number == n
  }

  lemma {:induction false} UpsertContents(h: History, blocks: seq<CanonicalBlock>)
    requires UpsertBlocks(h, blocks).Ok?
    ensures var r := UpsertBlocks(h, blocks).value;
            && (forall n :: n in r <==> n in h || NamesHeight(blocks, n))
            && (forall n | n in r ::
                  if NamesHeight(blocks, n) then r[n] in blocks && r[n].number == n else r[n] == h[n])
    decreases |blocks|
  {
    if blocks != [] {
      var m := |blocks| - 1;
      UpsertContents(h, blocks[..m]);
      forall n: nat ensures NamesHeight(blocks, n) <==> NamesHeight(blocks[..m], n) || blocks[m].number == n {
        if NamesHeight(blocks[..m], n) {
          var i :| 0 <= i < m && blocks[..m][i].number == n;
          assert blocks[i].number == n;
        }
        if NamesHeight(blocks, n) && blocks[m].number != n {
          var i :| 0 <= i < |blocks| && blocks[i].number == n;
          assert blocks[..m][i].number == n;
        }
      }
    }
  }

  /** The history gains the batch's blocks and loses what is below the retained window of its checkpoint. */
  ghost predicate HistorySaved(h: History, h': History, b: Persist, retain: nat) {
    && (forall n: nat :: n in h' <==>
          (n in h || NamesHeight(b.blocks, n)) && (retain > 0 ==> b.checkpoint.number < n + retain))
    && (forall n | n in h' ::
          if NamesHeight(b.blocks, n) then h'[n] in b.blocks && h'[n].number == n else h'[n] == h[n])
  }

  /** Events with their outbox rows and history rows from a height on are gone; the rest stands. */
  ghost predicate Cut(l: L.Ledger, l': L.Ledger, from: nat) {
    && (forall id :: id in l'.events <==> id in l.events && l.events[id].event.blockNumber < from)
    && (forall id | id in l'.events :: l'.events[id] == l.events[id])
    && (forall k :: k in l'.deliveries <==>
          k in l.deliveries && !(k.event in l.events && l.events[k.event].event.blockNumber >= from))
    && (forall k | k in l'.deliveries :: l'.deliveries[k] == l.deliveries[k])
    && (forall n :: n in l'.canonical <==> n in l.canonical && n < from)
    && (forall n | n in l'.canonical :: l'.canonical[n] == l.canonical[n])
  }

  /** The checkpoint never moves back. */
  predicate CheckpointSaved(before: Option<Checkpoint>, after: Option<Checkpoint>, given: Checkpoint) {
    after == if before.Some? && given.number < before.value.number then before else Some(given)
  }

  /** Everything a commit adds is given by the batch, and everything stored before stands. */
  ghost predicate Saved(l: L.Ledger, l': L.Ledger, b: Persist) {
    && (forall id | id in l.events :: id in l'.events && l'.events[id] == l.events[id])
    && (forall r | r in b.rows :: r.event.id in l'.events && l'.events[r.event.id].event == r.event)
    && (forall id | id in l'.events && id !in l.events :: l'.events[id] in b.rows && l'.events[id].event.id == id)
    && (forall k | k in l.deliveries :: k in l'.deliveries && l'.deliveries[k] == l.deliveries[k])
    && (forall k :: k in l'.deliveries && k !in l.deliveries <==>
          && k !in l.deliveries && k.event in l'.events && k.event !in l.events
          && exists d :: d in b.deliveries && Addresses(d, k))
    && (forall k | k in l'.deliveries && k !in l.deliveries ::
          exists d :: d in b.deliveries && Addresses(d, k) && FreshRow(d, l'.deliveries[k]))
  }

  lemma SaveBatchMeans(l: L.Ledger, b: Persist, retain: nat)
    ensures L.SaveBatch(l, b, retain).Ok? ==>
              var l' := L.SaveBatch(l, b, retain).value;
              && Saved(l, l', b) && HistorySaved(l.canonical, l'.canonical, b, retain)
              && CheckpointSaved(l.checkpoint, l'.checkpoint, b.checkpoint)
  {
    if L.SaveBatch(l, b, retain).Ok? {
      UpsertContents(l.canonical, b.blocks);
      InsertEventsAdds(l.events, b.rows);
      var i := InsertEvents(l.events, b.rows).value;
      InsertDeliveriesAdds(l.deliveries, b.deliveries, Ids(b.rows), i.added);
    }
  }

  // A failing prefix fails the whole list with the same error.

  lemma {:induction false} InsertFailsLater(table: EventTable, rows: seq<EventRow>, n: nat)
    requires n <= |rows| && InsertEvents(table, rows[..n]).Err?
    ensures InsertEvents(table, rows) == InsertEvents(table, rows[..n])
    decreases |rows|
  {
    if n == |rows| {
      assert rows[..n] == rows;
    } else {
      var m := |rows| - 1;
      assert rows[..m][..n] == rows[..n];
      InsertFailsLater(table, rows[..m], n);
    }
  }

  lemma {:induction false} DeliveriesFailLater(
      t: Outbox.Table, items: seq<NewDelivery>, supplied: set<EventId>, added: set<EventId>, n: nat)
    requires n <= |items| && InsertDeliveries(t, items[..n], supplied, added).Err?
    ensures InsertDeliveries(t, items, supplied, added) == InsertDeliveries(t, items[..n], supplied, added)
    decreases |items|
  {
    if n == |items| {
      assert items[..n] == items;
    } else {
      var m := |items| - 1;
      assert items[..m][..n] == items[..n];
      DeliveriesFailLater(t, items[..m], supplied, added, n);
    }
  }

  lemma {:induction false} UpsertFailsLater(h: History, blocks: seq<CanonicalBlock>, n: nat)
    requires n <= |blocks| && UpsertBlocks(h, blocks[..n]).Err?
    ensures UpsertBlocks(h, blocks) == UpsertBlocks(h, blocks[..n])
    decreases |blocks|
  {
    if n == |blocks| {
      assert blocks[..n] == blocks;
    } else {
      var m := |blocks| - 1;
      assert blocks[..m][..n] == blocks[..n];
      UpsertFailsLater(h, blocks[..m], n);
    }
  }
}
