/**
 The tables that one scanned chain owns, and what each store transaction makes
 of them. A failed transaction is an `Err` and leaves the tables as they were.
 */
module Ledger {
  import opened Common
  import opened Chain
  import opened Records
  import Outbox

  type EventTable = map<EventId, EventRow>
  type History = map<nat, CanonicalBlock>

  datatype Ledger = Ledger(
    checkpoint: Option<Checkpoint>, canonical: History, events: EventTable, deliveries: Outbox.Table)

  const EMPTY: Ledger := Ledger(None, map[], map[], map[])

  // ---------------------------------------------------------------- inserts

  datatype Inserted = Inserted(table: EventTable, added: set<EventId>)

  /** INSERT ... ON CONFLICT DO NOTHING, then the comparison with the stored duplicate. */
  function InsertEvent(table: EventTable, row: EventRow): Result<Inserted, Error> {
    var id := row.event.id;
    if id.logIndex > MAX_INT64 || row.event.blockNumber > MAX_INT64 then Err(OutOfRange)
    else if id !in table then Ok(Inserted(table[id := row], {id}))
    else if table[id].event == row.event then Ok(Inserted(table, {}))
    else Err(EventConflict)
  }

  function InsertEvents(table: EventTable, rows: seq<EventRow>): Result<Inserted, Error> {
    if rows == [] then Ok(Inserted(table, {}))
    else
      var n := |rows| - 1;
      match InsertEvents(table, rows[..n])
      case Err(e) => Err(e)
      case Ok(before) =>
        match InsertEvent(before.table, rows[n])
        case Err(e) => Err(e)
        case Ok(one) => Ok(Inserted(one.table, before.added + one.added))
  }

  function KeyFor(d: NewDelivery): Outbox.Key {
    Outbox.Key(d.event, d.destination.locator)
  }

  function RowFor(d: NewDelivery): Outbox.Row {
    Outbox.NewRow(d.destination.authentication, d.nextAttempt)
  }

  /** Outbox rows are created only for events this transaction created. */
  function InsertDeliveries(t: Outbox.Table, items: seq<NewDelivery>, supplied: set<EventId>, added: set<EventId>)
    : Result<Outbox.Table, Error>
  {
    if items == [] then Ok(t)
    else
      var n := |items| - 1;
      match InsertDeliveries(t, items[..n], supplied, added)
      case Err(e) => Err(e)
      case Ok(before) =>
        if items[n].event !in supplied then Err(UnknownEvent)
        else if items[n].event !in added then Ok(before)
        else Ok(Outbox.Insert(before, KeyFor(items[n]), RowFor(items[n])))
  }

  /** Upsert by height; a hash may stand at one height only (canonical_blocks_hash_idx). */
  function UpsertBlocks(h: History, blocks: seq<CanonicalBlock>): Result<History, Error> {
    if blocks == [] then Ok(h)
    else
      var n := |blocks| - 1;
      match UpsertBlocks(h, blocks[..n])
      case Err(e) => Err(e)
      case Ok(before) =>
        if HashElsewhere(before, blocks[n]) then Err(DuplicateBlockHash)
        else Ok(before[blocks[n].number := blocks[n]])
  }

  predicate HashElsewhere(h: History, b: CanonicalBlock) {
    exists m | m in h :: m != b.number && h[m].hash == b.hash
  }

  function Prune(h: History, below: int): History {
    map n | n in h && n >= below :: h[n]
  }

  // ----------------------------------------------------------- transactions

  datatype Persist = Persist(
    rows: seq<EventRow>, deliveries: seq<NewDelivery>, blocks: seq<CanonicalBlock>, checkpoint: Checkpoint)

  function Ids(rows: seq<EventRow>): set<EventId> {
    set r | r in rows :: r.event.id
  }

  /** INSERT ... ON CONFLICT DO UPDATE ... WHERE excluded.block_number >= checkpoints.block_number */
  function Advance(current: Option<Checkpoint>, to: Checkpoint): Option<Checkpoint> {
    if current.Some? && to.number < current.value.number then current else Some(to)
  }

  function Retained(h: History, checkpoint: Checkpoint, retain: nat): History {
    if retain > 0 && checkpoint.number + 1 > retain then Prune(h, checkpoint.number + 1 - retain) else h
  }

  function SaveBatch(l: Ledger, b: Persist, retain: nat): Result<Ledger, Error> {
    if b.checkpoint.number > MAX_INT64 then Err(OutOfRange)
    else
      match InsertEvents(l.events, b.rows)
      case Err(e) => Err(e)
      case Ok(ins) =>
        match InsertDeliveries(l.deliveries, b.deliveries, Ids(b.rows), ins.added)
        case Err(e) => Err(e)
        case Ok(deliveries) =>
          match UpsertBlocks(l.canonical, b.blocks)
          case Err(e) => Err(e)
          case Ok(canonical) =>
            Ok(Ledger(Advance(l.checkpoint, b.checkpoint), Retained(canonical, b.checkpoint, retain),
                      ins.table, deliveries))
  }

  function EventsAt(table: EventTable, from: nat): set<EventId> {
    set id | id in table && table[id].event.blockNumber >= from
  }

  function DeleteEvents(l: Ledger, gone: set<EventId>): Ledger {
    l.(events := map id | id in l.events && id !in gone :: l.events[id],
       deliveries := Outbox.Cascade(l.deliveries, gone))
  }

  function DeleteFrom(l: Ledger, from: nat): Ledger {
    var m := DeleteEvents(l, EventsAt(l.events, from));
    m.(canonical := map n | n in l.canonical && n < from :: l.canonical[n])
  }

  function RewindCanonical(l: Ledger, from: nat, ancestor: Hash): Ledger {
    DeleteFrom(l, from).(checkpoint :=
      if from == 0 || l.checkpoint.None? then None else Some(Checkpoint(from - 1, ancestor)))
  }

  function ResetFrom(l: Ledger, from: nat): Result<Ledger, Error> {
    if from > MAX_INT64 then Err(OutOfRange)
    else if l.checkpoint.None? then Err(CheckpointMissing)
    else Ok(DeleteFrom(l, from).(checkpoint := None))
  }

  /** The ledger part of an operator's skip: move the checkpoint to a newer block, touching no event. */
  function SkipTo(l: Ledger, start: nat, depth: nat, previous: Option<Checkpoint>, target: CanonicalBlock)
    : Result<Ledger, Error>
  {
    if target.number >= MAX_INT64 || target.hash == ZERO_HASH || (target.number > 0 && target.parent == ZERO_HASH)
       || target.number < start || previous != l.checkpoint
       || (l.checkpoint.Some? && target.number <= l.checkpoint.value.number)
       || (exists id | id in l.events :: l.events[id].event.blockNumber == target.number
                                         && l.events[id].event.blockHash != target.hash)
    then Err(SkipConflict)
    else if HashElsewhere(l.canonical, target) then Err(DuplicateBlockHash)
    else
      var canonical := l.canonical[target.number := target];
      Ok(l.(checkpoint := Some(Checkpoint(target.number, target.hash)),
            canonical := if target.number > depth then Prune(canonical, target.number - depth) else canonical))
  }

  datatype Backfilled = Backfilled(ledger: Ledger, created: nat, deliveries: nat, duplicates: nat)

  function EventsOf(items: seq<NewDelivery>): set<EventId> {
    set d | d in items :: d.event
  }

  function CountFor(items: seq<NewDelivery>, id: EventId): nat {
    if items == [] then 0
    else CountFor(items[..|items| - 1], id) + (if items[|items| - 1].event == id then 1 else 0)
  }

  /** One event of a backfill batch: refused when the retained history says otherwise, skipped when stored. */
  function BackfillOne(b: Backfilled, row: EventRow, items: seq<NewDelivery>): Result<Backfilled, Error> {
    var l, e := b.ledger, row.event;
    if e.blockNumber in l.canonical && l.canonical[e.blockNumber].hash != e.blockHash then Err(HistoryConflict)
    else
      match InsertEvent(l.events, row)
      case Err(x) => Err(x)
      case Ok(one) =>
        if one.added == {} then Ok(b.(duplicates := b.duplicates + 1))
        else
          match InsertDeliveries(l.deliveries, items, EventsOf(items), {e.id})
          case Err(x) => Err(x)
          case Ok(deliveries) =>
            Ok(Backfilled(l.(events := one.table, deliveries := deliveries), b.created + 1,
                          b.deliveries + CountFor(items, e.id), b.duplicates))
  }

  function BackfillAll(l: Ledger, rows: seq<EventRow>, items: seq<NewDelivery>): Result<Backfilled, Error> {
    if rows == [] then Ok(Backfilled(l, 0, 0, 0))
    else
      match BackfillAll(l, rows[..|rows| - 1], items)
      case Err(e) => Err(e)
      case Ok(before) => BackfillOne(before, rows[|rows| - 1], items)
  }

  /** The highest height in a nonempty history. */
  function Top(h: History): (top: nat)
    requires h.Keys != {}
    ensures top in h && forall n | n in h :: n <= top
  {
    TopExists(h.Keys);
    var top :| top in h && forall n | n in h :: n <= top;
    top
  }

  lemma {:induction false} TopExists(s: set<nat>)
    requires s != {}
    ensures exists top :: top in s && forall n | n in s :: n <= top
    decreases |s|
  {
    var x :| x in s;
    if s != {x} {
      TopExists(s - {x});
      var top :| top in s - {x} && forall n | n in s - {x} :: n <= top;
      var best := if x > top then x else top;
      assert best in s && forall n | n in s :: n <= best by {
        forall n | n in s ensures n <= best {
          if n != x { assert n in s - {x}; }
        }
      }
    }
  }

  /** SELECT ... ORDER BY block_number DESC LIMIT */
  function Newest(h: History, limit: nat): seq<CanonicalBlock>
    decreases limit
  {
    if limit == 0 || h.Keys == {} then []
    else
      var top := Top(h);
      [h[top]] + Newest(h - {top}, limit - 1)
  }

  ghost predicate KeyedByNumber(h: History) {
    forall n | n in h :: h[n].number == n
  }

  /** Rows of the history, in descending order of height. */
  ghost predicate Descending(h: History, rows: seq<CanonicalBlock>) {
    && (forall i | 0 <= i < |rows| :: rows[i].number in h && h[rows[i].number] == rows[i])
    && (forall i, j | 0 <= i < j < |rows| :: rows[i].number > rows[j].number)
  }

  lemma {:induction false} NewestAreRows(h: History, limit: nat)
    requires KeyedByNumber(h)
    ensures Descending(h, Newest(h, limit))
    decreases limit
  {
    if limit > 0 && h.Keys != {} {
      var top := Top(h);
      var rest := Newest(h - {top}, limit - 1);
      NewestAreRows(h - {top}, limit - 1);
      assert Newest(h, limit) == [h[top]] + rest;
      assert forall n | n in h - {top} :: n in h && (h - {top})[n] == h[n] && n < top;
      assert forall i | 0 <= i < |rest| :: rest[i].number < top;
    }
  }

  /** A history within `depth` of its top is read whole by a query for depth + 1 rows. */
  lemma {:induction false} NewestIsWhole(h: History, top: int, limit: nat, n: nat)
    requires KeyedByNumber(h) && n in h
    requires forall m | m in h :: top - limit < m <= top
    ensures h[n] in Newest(h, limit)
    decreases limit
  {
    var x := Top(h);
    if n != x {
      NewestIsWhole(h - {x}, x - 1, limit - 1, n);
    }
  }

  const HISTORY_LIMIT := 100000

  function CanonicalBlocks(l: Ledger, limit: nat): Result<seq<CanonicalBlock>, Error> {
    if limit == 0 || limit > HISTORY_LIMIT then Err(HistoryLimit) else Ok(Newest(l.canonical, limit))
  }

  // -------------------------------------------------------------- processor

  datatype Prepared = Prepared(rows: seq<EventRow>, deliveries: seq<NewDelivery>)

  function NewDeliveries(e: Event, destinations: seq<Destination>, now: int): seq<NewDelivery> {
    seq(|destinations|, i requires 0 <= i < |destinations| => NewDelivery(e.id, destinations[i], now))
  }

  /** Decode and route one batch; one bad log fails the whole batch. */
  function Prepare(d: Decoder, logs: seq<RawLog>, now: int): Result<Prepared, Error> {
    if logs == [] then Ok(Prepared([], []))
    else
      var n := |logs| - 1;
      match Prepare(d, logs[..n], now)
      case Err(e) => Err(e)
      case Ok(before) =>
        match d.decode(logs[n])
        case Unconfigured => Ok(before)
        case Undecodable => Err(DecodeFailure)
        case DecodedAs(event) =>
          match d.route(event)
          case None => Err(NoRoute)
          case Some(destinations) =>
            Ok(Prepared(before.rows + [EventRow(event, now)],
                        before.deliveries + NewDeliveries(event, destinations, now)))
  }

  // ------------------------------------------------------- facts about tables

  ghost predicate Stored(l: Ledger, e: Event) {
    e.id in l.events && l.events[e.id].event == e
  }

  ghost predicate KeyedById(table: EventTable) {
    forall id | id in table :: table[id].event.id == id
  }

  /** Every outbox row belongs to a stored event (the foreign key). */
  ghost predicate NoOrphanRows(l: Ledger) {
    forall k | k in l.deliveries :: k.event in l.events
  }

  lemma IdsOfSnoc(rows: seq<EventRow>)
    requires rows != []
    ensures Ids(rows) == Ids(rows[..|rows| - 1]) + {rows[|rows| - 1].event.id}
  {
    var n := |rows| - 1;
    assert rows == rows[..n] + [rows[n]];
  }

  lemma {:induction false} InsertEventsKeys(table: EventTable, rows: seq<EventRow>)
    requires InsertEvents(table, rows).Ok?
    ensures var i := InsertEvents(table, rows).value;
            && i.table.Keys == table.Keys + Ids(rows)
            && i.added == i.table.Keys - table.Keys
    decreases |rows|
  {
    if rows != [] {
      InsertEventsKeys(table, rows[..|rows| - 1]);
      IdsOfSnoc(rows);
    }
  }

  lemma {:induction false} InsertEventsContents(table: EventTable, rows: seq<EventRow>)
    requires InsertEvents(table, rows).Ok?
    ensures var i := InsertEvents(table, rows).value;
            && (forall id | id in table :: id in i.table && i.table[id] == table[id])
            && (forall r | r in rows :: r.event.id in i.table && i.table[r.event.id].event == r.event)
            && (forall id | id in i.table && id !in table :: i.table[id] in rows && i.table[id].event.id == id)
    decreases |rows|
  {
    if rows != [] {
      var n := |rows| - 1;
      InsertEventsContents(table, rows[..n]);
      var before := InsertEvents(table, rows[..n]).value.table;
      var i := InsertEvents(table, rows).value.table;
      var last := rows[n];
      assert i == (if last.event.id in before then before else before[last.event.id := last]);
      forall r | r in rows ensures r.event.id in i && i[r.event.id].event == r.event {
        if r != last { assert r in rows[..n]; }
      }
      forall id | id in i && id !in table ensures i[id] in rows && i[id].event.id == id {
        if id in before { assert before[id] in rows[..n]; }
      }
    }
  }

  /** An insert keeps every stored row, stores every given event, and reports exactly the new keys. */
  lemma InsertEventsAdds(table: EventTable, rows: seq<EventRow>)
    requires InsertEvents(table, rows).Ok?
    ensures var i := InsertEvents(table, rows).value;
            && i.table.Keys == table.Keys + Ids(rows)
            && i.added == i.table.Keys - table.Keys
            && (forall id | id in table :: i.table[id] == table[id])
            && (forall r | r in rows :: i.table[r.event.id].event == r.event)
            && (forall id | id in i.added :: i.table[id] in rows && i.table[id].event.id == id)
  {
    InsertEventsKeys(table, rows);
    InsertEventsContents(table, rows);
  }

  /** Stored events replay as a no-op. */
  lemma {:induction false} InsertStoredEvents(table: EventTable, rows: seq<EventRow>)
    requires forall r | r in rows :: r.event.id in table && table[r.event.id].event == r.event
    requires InsertEvents(table, rows).Ok?
    ensures InsertEvents(table, rows).value == Inserted(table, {})
    decreases |rows|
  {
    if rows != [] {
      InsertStoredEvents(table, rows[..|rows| - 1]);
      assert rows[|rows| - 1] in rows;
      var nothing: set<EventId> := {};
      assert nothing + nothing == nothing;
    }
  }

  lemma {:induction false} InsertForNoEvents(t: Outbox.Table, items: seq<NewDelivery>, supplied: set<EventId>)
    requires InsertDeliveries(t, items, supplied, {}).Ok?
    ensures InsertDeliveries(t, items, supplied, {}).value == t
    decreases |items|
  {
    if items != [] {
      InsertForNoEvents(t, items[..|items| - 1], supplied);
    }
  }

  /** The outbox key names the event and the destination's locator. */
  predicate Addresses(d: NewDelivery, k: Outbox.Key) {
    k.event == d.event && k.destination == d.destination.locator
  }

  /** A row nobody has worked on: pending, due at the proposed time, to be signed as the destination asks. */
  predicate FreshRow(d: NewDelivery, row: Outbox.Row) {
    && row.authentication == d.destination.authentication && row.nextAttempt == d.nextAttempt
    && row.status == Outbox.Pending && row.attempts == 0 && row.total == 0 && row.token == Outbox.NO_TOKEN
    && row.lastAttemptAt.None? && row.lastStatus.None? && row.lastError == Outbox.NO_ERROR && row.deliveredAt.None?
  }

  /** Outbox rows are added for exactly the proposed destinations of added events; none is altered. */
  lemma {:induction false} InsertDeliveriesAdds(
      t: Outbox.Table, items: seq<NewDelivery>, supplied: set<EventId>, added: set<EventId>)
    requires InsertDeliveries(t, items, supplied, added).Ok?
    ensures var r := InsertDeliveries(t, items, supplied, added).value;
            && t.Keys <= r.Keys
            && (forall k | k in t :: r[k] == t[k])
            && (forall k :: k in r && k !in t <==>
                  k !in t && exists d :: d in items && d.event in added && Addresses(d, k))
            && (forall k | k in r && k !in t :: exists d :: d in items && Addresses(d, k) && FreshRow(d, r[k]))
    decreases |items|
  {
    if items != [] {
      var n := |items| - 1;
      var last := items[n];
      InsertDeliveriesAdds(t, items[..n], supplied, added);
      var before := InsertDeliveries(t, items[..n], supplied, added).value;
      var r := InsertDeliveries(t, items, supplied, added).value;
      forall k
        ensures k in r && k !in t <==> k !in t && exists d :: d in items && d.event in added && Addresses(d, k)
      {
        if k in r && k !in t {
          if k in before {
            var d :| d in items[..n] && d.event in added && Addresses(d, k);
            assert d in items;
          } else {
            assert last in items && last.event in added && Addresses(last, k);
          }
        }
        if k !in t && exists d :: d in items && d.event in added && Addresses(d, k) {
          var d :| d in items && d.event in added && Addresses(d, k);
          if d != last { assert d in items[..n]; }
        }
      }
      forall k | k in r && k !in t ensures exists d :: d in items && Addresses(d, k) && FreshRow(d, r[k]) {
        if k in before {
          var d :| d in items[..n] && Addresses(d, k) && FreshRow(d, before[k]);
          assert d in items;
        } else {
          assert last in items && Addresses(last, k) && FreshRow(last, r[k]);
        }
      }
    }
  }

  /** Upserting a run replaces exactly its own heights. */
  lemma {:induction false} UpsertRun(h: History, blocks: seq<CanonicalBlock>, from: nat)
    requires UpsertBlocks(h, blocks).Ok?
    requires forall i | 0 <= i < |blocks| :: blocks[i].number == from + i
    ensures var r := UpsertBlocks(h, blocks).value;
            && (forall n :: n in r <==> n in h || from <= n < from + |blocks|)
            && (forall n | n in r :: r[n] == if from <= n < from + |blocks| then blocks[n - from] else h[n])
    decreases |blocks|
  {
    if blocks != [] {
      UpsertRun(h, blocks[..|blocks| - 1], from);
    }
  }

  // ------------------------------------------------- when a batch is stored

  predicate InRange(row: EventRow) {
    row.event.id.logIndex <= MAX_INT64 && row.event.blockNumber <= MAX_INT64
  }

  /** No two events of one identity differ, in the batch or between it and the table. */
  predicate Consistent(table: EventTable, rows: seq<EventRow>) {
    && (forall r | r in rows && r.event.id in table :: table[r.event.id].event == r.event)
    && (forall r, s | r in rows && s in rows && r.event.id == s.event.id :: r.event == s.event)
  }

  lemma {:induction false} InsertEventsOkIff(table: EventTable, rows: seq<EventRow>)
    ensures InsertEvents(table, rows).Ok? <==> Consistent(table, rows) && forall r | r in rows :: InRange(r)
    decreases |rows|
  {
    if rows != [] {
      var n := |rows| - 1;
      var last, front := rows[n], rows[..n];
      assert rows == front + [last];
      InsertEventsOkIff(table, front);
      if InsertEvents(table, front).Ok? {
        InsertEventsContents(table, front);
        LastFits(table, front, last);
      } else {
        assert forall r | r in front :: r in rows;
      }
    }
  }

  /** The event contradicts neither the table nor the rows before it. */
  predicate Fits(table: EventTable, front: seq<EventRow>, e: Event) {
    && (e.id in table ==> table[e.id].event == e)
    && (forall r | r in front && r.event.id == e.id :: r.event == e)
  }

  lemma ConsistentSnoc(table: EventTable, front: seq<EventRow>, last: EventRow)
    requires Consistent(table, front)
    ensures Consistent(table, front + [last]) <==> Fits(table, front, last.event)
  {
    var rows := front + [last];
    assert last in rows && forall r | r in front :: r in rows;
  }

  lemma LastFits(table: EventTable, front: seq<EventRow>, last: EventRow)
    requires InsertEvents(table, front).Ok? && Consistent(table, front)
    ensures InsertEvent(InsertEvents(table, front).value.table, last).Ok? <==>
            Consistent(table, front + [last]) && InRange(last)
  {
    ConsistentSnoc(table, front, last);
    InsertEventsAdds(table, front);
    var t, id := InsertEvents(table, front).value.table, last.event.id;
    if id in t && id !in table {
      assert id in Ids(front);
    }
  }

  lemma {:induction false} InsertDeliveriesOkIff(
      t: Outbox.Table, items: seq<NewDelivery>, supplied: set<EventId>, added: set<EventId>)
    ensures InsertDeliveries(t, items, supplied, added).Ok? <==> forall d | d in items :: d.event in supplied
    decreases |items|
  {
    if items != [] {
      var n := |items| - 1;
      assert items == items[..n] + [items[n]];
      InsertDeliveriesOkIff(t, items[..n], supplied, added);
    }
  }

  /** No block of a run stands at another height, in the run or in the history outside it. */
  ghost predicate HashesFree(h: History, blocks: seq<CanonicalBlock>, from: nat) {
    && (forall i, j | 0 <= i < j < |blocks| :: blocks[i].hash != blocks[j].hash)
    && (forall i, m | 0 <= i < |blocks| && m in h && (m < from || m > from + i) :: h[m].hash != blocks[i].hash)
  }

  lemma {:induction false} UpsertOkIff(h: History, blocks: seq<CanonicalBlock>, from: nat)
    requires forall i | 0 <= i < |blocks| :: blocks[i].number == from + i
    ensures UpsertBlocks(h, blocks).Ok? <==> HashesFree(h, blocks, from)
    decreases |blocks|
  {
    if blocks != [] {
      var n := |blocks| - 1;
      UpsertOkIff(h, blocks[..n], from);
      if UpsertBlocks(h, blocks[..n]).Ok? {
        UpsertRun(h, blocks[..n], from);
        var before := UpsertBlocks(h, blocks[..n]).value;
        if HashesFree(h, blocks, from) {
          forall m | m in before && m != blocks[n].number ensures before[m].hash != blocks[n].hash {
            if from <= m < from + n { assert before[m] == blocks[m - from]; }
          }
        }
        if !HashElsewhere(before, blocks[n]) {
          forall i | 0 <= i < n ensures blocks[i].hash != blocks[n].hash {
            assert before[from + i] == blocks[i];
          }
          forall m | m in h && (m < from || m > from + n) ensures h[m].hash != blocks[n].hash {
            assert before[m] == h[m];
          }
        }
      } else if HashesFree(h, blocks, from) {
        assert HashesFree(h, blocks[..n], from);
      }
    }
  }

  /** A batch over consecutive blocks is stored if and only if nothing in it is out of range or contradicts anything. */
  lemma SaveBatchOkIff(l: Ledger, b: Persist, retain: nat, from: nat)
    requires forall i | 0 <= i < |b.blocks| :: b.blocks[i].number == from + i
    ensures SaveBatch(l, b, retain).Ok? <==>
            && b.checkpoint.number <= MAX_INT64 && (forall r | r in b.rows :: InRange(r))
            && Consistent(l.events, b.rows)
            && (forall d | d in b.deliveries :: exists r :: r in b.rows && r.event.id == d.event)
            && HashesFree(l.canonical, b.blocks, from)
  {
    InsertEventsOkIff(l.events, b.rows);
    if InsertEvents(l.events, b.rows).Ok? {
      InsertDeliveriesOkIff(l.deliveries, b.deliveries, Ids(b.rows), InsertEvents(l.events, b.rows).value.added);
    }
    UpsertOkIff(l.canonical, b.blocks, from);
  }

  /** A batch decodes and routes if and only if each of its logs does. */
  lemma {:induction false} PrepareOkIff(d: Decoder, logs: seq<RawLog>, now: int)
    ensures Prepare(d, logs, now).Ok? <==>
            forall r | r in logs ::
              !d.decode(r).Undecodable? && (d.decode(r).DecodedAs? ==> d.route(d.decode(r).event).Some?)
    decreases |logs|
  {
    if logs != [] {
      var n := |logs| - 1;
      assert logs == logs[..n] + [logs[n]];
      PrepareOkIff(d, logs[..n], now);
    }
  }
}
