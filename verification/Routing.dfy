/** Every stored event has exactly the outbox rows it routes to, and no outbox row stands alone. */
module Routing {
  import opened Common
  import opened Records
  import opened Ledger
  import Outbox

  ghost predicate RoutesTo(d: Decoder, e: Event, destination: nat) {
    d.route(e).Some? && exists x :: x in d.route(e).value && x.locator == destination
  }

  ghost predicate Routed(d: Decoder, l: Ledger) {
    forall k :: k in l.deliveries <==> k.event in l.events && RoutesTo(d, l.events[k.event].event, k.destination)
  }

  lemma NewDeliveriesRoute(e: Event, destinations: seq<Destination>, now: int, item: NewDelivery)
    ensures item in NewDeliveries(e, destinations, now) <==>
            item.event == e.id && item.nextAttempt == now && item.destination in destinations
  {
    var items := NewDeliveries(e, destinations, now);
    if item.event == e.id && item.nextAttempt == now && item.destination in destinations {
      var i :| 0 <= i < |destinations| && destinations[i] == item.destination;
      assert items[i] == item;
    }
  }

  ghost predicate Proposed(d: Decoder, rows: seq<EventRow>, now: int, item: NewDelivery) {
    item.nextAttempt == now && exists row ::
      && row in rows && row.event.id == item.event
      && d.route(row.event).Some? && item.destination in d.route(row.event).value
  }

  /** The processor proposes exactly the routes of the events it prepares. */
  lemma {:induction false} PreparedDeliveriesRoute(d: Decoder, logs: seq<RawLog>, now: int, item: NewDelivery)
    requires Prepare(d, logs, now).Ok?
    ensures var p := Prepare(d, logs, now).value;
            item in p.deliveries <==> Proposed(d, p.rows, now, item)
    decreases |logs|
  {
    if logs != [] {
      var n := |logs| - 1;
      PreparedDeliveriesRoute(d, logs[..n], now, item);
      if d.decode(logs[n]).DecodedAs? {
        var before := Prepare(d, logs[..n], now).value;
        var e := d.decode(logs[n]).event;
        PreparedSnoc(d, before, e, now, item);
      }
    }
  }

  lemma PreparedSnoc(d: Decoder, before: Prepared, e: Event, now: int, item: NewDelivery)
    requires d.route(e).Some?
    requires item in before.deliveries <==> Proposed(d, before.rows, now, item)
    ensures item in before.deliveries + NewDeliveries(e, d.route(e).value, now) <==>
            Proposed(d, before.rows + [EventRow(e, now)], now, item)
  {
    NewDeliveriesRoute(e, d.route(e).value, now, item);
    var row := EventRow(e, now);
    var rows := before.rows + [row];
    assert row in rows;
    if Proposed(d, before.rows, now, item) {
      var prior :| prior in before.rows && prior.event.id == item.event
                 && d.route(prior.event).Some? && item.destination in d.route(prior.event).value;
      assert prior in rows;
    }
  }

  /** An event commits together with exactly its routed outbox rows; stored rows are not touched. */
  lemma CommitKeepsRouted(d: Decoder, l: Ledger, logs: seq<RawLog>, now: int, b: Persist, retain: nat, l': Ledger)
    requires Routed(d, l) && Prepare(d, logs, now) == Ok(Prepared(b.rows, b.deliveries))
    requires SaveBatch(l, b, retain) == Ok(l')
    ensures Routed(d, l')
    ensures forall k | k in l.deliveries :: k in l'.deliveries && l'.deliveries[k] == l.deliveries[k]
  {
    InsertEventsAdds(l.events, b.rows);
    var i := InsertEvents(l.events, b.rows).value;
    InsertDeliveriesAdds(l.deliveries, b.deliveries, Ids(b.rows), i.added);
    forall k
      ensures k in l'.deliveries <==> k.event in l'.events && RoutesTo(d, l'.events[k.event].event, k.destination)
    {
      if k.event in l.events {
        assert l'.events[k.event] == l.events[k.event] && k.event !in i.added;
      } else {
        NewRowsRoute(d, l, logs, now, b, i, k);
      }
    }
  }

  /** The row is untouched, due at once, and carries the authentication of a route with its locator. */
  ghost predicate RowAsRouted(d: Decoder, e: Event, now: int, k: Outbox.Key, row: Outbox.Row) {
    && d.route(e).Some?
    && (exists x :: x in d.route(e).value && x.locator == k.destination && x.authentication == row.authentication)
    && row.nextAttempt == now && row.status == Outbox.Pending && row.attempts == 0 && row.total == 0
    && row.token == Outbox.NO_TOKEN && row.lastAttemptAt.None? && row.lastStatus.None?
    && row.lastError == Outbox.NO_ERROR && row.deliveredAt.None?
  }

  /** Every outbox row a commit adds is as its event is routed. */
  lemma CommitAddsRowsAsRouted(
      d: Decoder, l: Ledger, logs: seq<RawLog>, now: int, b: Persist, retain: nat, l': Ledger, k: Outbox.Key)
    requires Prepare(d, logs, now) == Ok(Prepared(b.rows, b.deliveries)) && SaveBatch(l, b, retain) == Ok(l')
    requires k in l'.deliveries && k !in l.deliveries
    ensures k.event in l'.events && k.event !in l.events
    ensures RowAsRouted(d, l'.events[k.event].event, now, k, l'.deliveries[k])
  {
    InsertEventsAdds(l.events, b.rows);
    var i := InsertEvents(l.events, b.rows).value;
    InsertDeliveriesAdds(l.deliveries, b.deliveries, Ids(b.rows), i.added);
    var y :| y in b.deliveries && y.event in i.added && Addresses(y, k);
    var x :| x in b.deliveries && Addresses(x, k) && FreshRow(x, l'.deliveries[k]);
    ProposedRow(d, logs, now, b.rows, b.deliveries, x, l'.events[k.event].event, k, l'.deliveries[k]);
  }

  lemma ProposedRow(
      d: Decoder, logs: seq<RawLog>, now: int, rows: seq<EventRow>, items: seq<NewDelivery>, x: NewDelivery, e: Event,
      k: Outbox.Key, row: Outbox.Row)
    requires Prepare(d, logs, now) == Ok(Prepared(rows, items)) && x in items && Addresses(x, k) && FreshRow(x, row)
    requires forall r | r in rows && r.event.id == k.event :: r.event == e
    ensures RowAsRouted(d, e, now, k, row)
  {
    PreparedDeliveriesRoute(d, logs, now, x);
    var r :| r in rows && r.event.id == x.event
             && d.route(r.event).Some? && x.destination in d.route(r.event).value;
    assert r.event == e && x.destination in d.route(e).value;
  }

  lemma NewRowsRoute(d: Decoder, l: Ledger, logs: seq<RawLog>, now: int, b: Persist, i: Inserted, k: Outbox.Key)
    requires Prepare(d, logs, now) == Ok(Prepared(b.rows, b.deliveries))
    requires InsertEvents(l.events, b.rows) == Ok(i) && k.event !in l.events
    ensures (exists x :: x in b.deliveries && x.event in i.added && Addresses(x, k)) <==>
            k.event in i.table && RoutesTo(d, i.table[k.event].event, k.destination)
  {
    InsertEventsAdds(l.events, b.rows);
    if exists x :: x in b.deliveries && x.event in i.added && Addresses(x, k) {
      var x :| x in b.deliveries && x.event in i.added && Addresses(x, k);
      PreparedDeliveriesRoute(d, logs, now, x);
      var row :| row in b.rows && row.event.id == x.event
                 && d.route(row.event).Some? && x.destination in d.route(row.event).value;
      assert i.table[k.event].event == row.event;
    }
    if k.event in i.table && RoutesTo(d, i.table[k.event].event, k.destination) {
      assert k.event in i.added;
      var row := i.table[k.event];
      var y :| y in d.route(row.event).value && y.locator == k.destination;
      var x := NewDelivery(k.event, y, now);
      PreparedDeliveriesRoute(d, logs, now, x);
      assert row in b.rows && row.event.id == x.event;
      assert x in b.deliveries && Addresses(x, k);
    }
  }

  /** Deleting events deletes exactly their outbox rows. */
  lemma DeleteKeepsRouted(d: Decoder, l: Ledger, gone: set<EventId>)
    requires Routed(d, l)
    ensures Routed(d, DeleteEvents(l, gone))
  {
  }

  // ---------------------------------------------------------------- replay

  /**
   Replaying a batch whose events are stored adds and alters no event and no outbox row,
   whatever happened to the outbox rows in the meantime.
   */
  lemma ReplayAddsNothing(l: Ledger, b: Persist, retain: nat, l': Ledger)
    requires forall row | row in b.rows :: Stored(l, row.event)
    requires SaveBatch(l, b, retain) == Ok(l')
    ensures l'.events == l.events && l'.deliveries == l.deliveries
  {
    InsertStoredEvents(l.events, b.rows);
    InsertForNoEvents(l.deliveries, b.deliveries, Ids(b.rows));
  }

  /** Once committed, a batch is stored: replaying it is always such a no-op. */
  lemma CommitThenReplay(l: Ledger, b: Persist, retain: nat, l': Ledger, again: nat, l'': Ledger)
    requires SaveBatch(l, b, retain) == Ok(l') && SaveBatch(l', b, again) == Ok(l'')
    ensures l''.events == l'.events && l''.deliveries == l'.deliveries
  {
    InsertEventsAdds(l.events, b.rows);
    forall row | row in b.rows ensures Stored(l', row.event) {
      assert l'.events[row.event.id].event == row.event;
    }
    ReplayAddsNothing(l', b, again, l'');
  }

  // -------------------------------------------------------------- backfills

  /** A backfill stores its events as a live batch would, and accounts for each as created or duplicate. */
  lemma {:induction false} BackfillStoresEvents(l: Ledger, rows: seq<EventRow>, items: seq<NewDelivery>)
    requires BackfillAll(l, rows, items).Ok?
    ensures var b := BackfillAll(l, rows, items).value;
            && b.created + b.duplicates == |rows|
            && InsertEvents(l.events, rows).Ok? && InsertEvents(l.events, rows).value.table == b.ledger.events
            && b.ledger.checkpoint == l.checkpoint && b.ledger.canonical == l.canonical
    decreases |rows|
  {
    if rows != [] {
      var n := |rows| - 1;
      BackfillStoresEvents(l, rows[..n], items);
      assert rows[n].event.id in {rows[n].event.id};
    }
  }

  /** The retained history does not name another block at the event's height. */
  predicate Uncontested(h: History, e: Event) {
    e.blockNumber in h ==> h[e.blockNumber].hash == e.blockHash
  }

  lemma BackfillOneOkIff(b: Backfilled, row: EventRow, items: seq<NewDelivery>)
    ensures BackfillOne(b, row, items).Ok? <==>
            Uncontested(b.ledger.canonical, row.event) && InsertEvent(b.ledger.events, row).Ok?
  {
    InsertDeliveriesOkIff(b.ledger.deliveries, items, EventsOf(items), {row.event.id});
  }

  lemma {:induction false} BackfillInsertsIff(l: Ledger, rows: seq<EventRow>, items: seq<NewDelivery>)
    ensures BackfillAll(l, rows, items).Ok? <==>
            InsertEvents(l.events, rows).Ok? && forall r | r in rows :: Uncontested(l.canonical, r.event)
    decreases |rows|
  {
    if rows != [] {
      var n := |rows| - 1;
      assert rows == rows[..n] + [rows[n]];
      BackfillInsertsIff(l, rows[..n], items);
      if BackfillAll(l, rows[..n], items).Ok? {
        BackfillStoresEvents(l, rows[..n], items);
        BackfillOneOkIff(BackfillAll(l, rows[..n], items).value, rows[n], items);
      }
    }
  }

  /** A backfill batch is stored iff no event is out of range, contradicts a stored or given one, or is contested. */
  lemma BackfillOkIff(l: Ledger, rows: seq<EventRow>, items: seq<NewDelivery>)
    ensures BackfillAll(l, rows, items).Ok? <==>
            && (forall r | r in rows :: InRange(r) && Uncontested(l.canonical, r.event))
            && Consistent(l.events, rows)
  {
    BackfillInsertsIff(l, rows, items);
    InsertEventsOkIff(l.events, rows);
  }

  /** The number of created events is the number of new identities. */
  lemma {:induction false} BackfillCountsCreated(l: Ledger, rows: seq<EventRow>, items: seq<NewDelivery>)
    requires BackfillAll(l, rows, items).Ok?
    ensures var b := BackfillAll(l, rows, items).value;
            l.events.Keys <= b.ledger.events.Keys && b.created == |b.ledger.events.Keys - l.events.Keys|
    decreases |rows|
  {
    if rows == [] {
      assert l.events.Keys - l.events.Keys == {};
    } else {
      var n := |rows| - 1;
      BackfillCountsCreated(l, rows[..n], items);
      var before := BackfillAll(l, rows[..n], items).value;
      BackfillOneEvents(before, rows[n], items);
      if rows[n].event.id !in before.ledger.events {
        KeysGrow(l.events.Keys, before.ledger.events, rows[n]);
      }
    }
  }

  lemma BackfillOneEvents(b: Backfilled, row: EventRow, items: seq<NewDelivery>)
    requires BackfillOne(b, row, items).Ok?
    ensures var b' := BackfillOne(b, row, items).value;
            if row.event.id in b.ledger.events
            then b'.ledger.events == b.ledger.events && b'.created == b.created
            else b'.ledger.events == b.ledger.events[row.event.id := row] && b'.created == b.created + 1
  {
    assert row.event.id in {row.event.id};
  }

  lemma KeysGrow(base: set<EventId>, t: EventTable, row: EventRow)
    requires base <= t.Keys && row.event.id !in t
    ensures base <= t[row.event.id := row].Keys
    ensures |t[row.event.id := row].Keys - base| == |t.Keys - base| + 1
  {
    assert t[row.event.id := row].Keys - base == (t.Keys - base) + {row.event.id};
  }

  /** Each event a backfill creates gets exactly its proposed outbox rows, all fresh; nothing stored is altered. */
  lemma {:induction false} BackfillAddsDeliveries(
      l: Ledger, rows: seq<EventRow>, items: seq<NewDelivery>, k: Outbox.Key)
    requires NoOrphanRows(l) && BackfillAll(l, rows, items).Ok?
    ensures var m := BackfillAll(l, rows, items).value.ledger;
            && (k in l.deliveries ==> k in m.deliveries && m.deliveries[k] == l.deliveries[k])
            && (k !in l.deliveries ==>
                  (k in m.deliveries <==>
                     k.event in m.events && k.event !in l.events && exists d :: d in items && Addresses(d, k)))
            && (k !in l.deliveries && k in m.deliveries ==>
                  exists d :: d in items && Addresses(d, k) && FreshRow(d, m.deliveries[k]))
    decreases |rows|
  {
    if rows != [] {
      var n := |rows| - 1;
      BackfillAddsDeliveries(l, rows[..n], items, k);
      BackfillStoresEvents(l, rows[..n], items);
      InsertEventsAdds(l.events, rows[..n]);
      var before := BackfillAll(l, rows[..n], items).value.ledger;
      var id := rows[n].event.id;
      if id !in before.events {
        assert id in {id};
        InsertDeliveriesAdds(before.deliveries, items, EventsOf(items), {id});
      }
    }
  }

  /** Replaying a backfill batch over stored events counts only duplicates and changes nothing. */
  lemma {:induction false} BackfillReplayAddsNothing(l: Ledger, rows: seq<EventRow>, items: seq<NewDelivery>)
    requires forall row | row in rows :: Stored(l, row.event)
    requires BackfillAll(l, rows, items).Ok?
    ensures BackfillAll(l, rows, items).value == Backfilled(l, 0, 0, |rows|)
    decreases |rows|
  {
    if rows != [] {
      BackfillReplayAddsNothing(l, rows[..|rows| - 1], items);
      assert rows[|rows| - 1] in rows;
    }
  }

  /** How many of the items belong to one of these events. */
  function ItemsOf(items: seq<NewDelivery>, events: set<EventId>): nat {
    if items == [] then 0
    else ItemsOf(items[1..], events) + (if items[0].event in events then 1 else 0)
  }

  lemma {:induction false} ItemsOfSnoc(items: seq<NewDelivery>, events: set<EventId>)
    requires items != []
    ensures ItemsOf(items, events) ==
            ItemsOf(items[..|items| - 1], events) + (if items[|items| - 1].event in events then 1 else 0)
    decreases |items|
  {
    if |items| > 1 {
      ItemsOfSnoc(items[1..], events);
      assert items[1..][..|items| - 2] == items[..|items| - 1][1..];
    }
  }

  lemma {:induction false} ItemsOfOneMore(items: seq<NewDelivery>, events: set<EventId>, id: EventId)
    requires id !in events
    ensures ItemsOf(items, events + {id}) == ItemsOf(items, events) + CountFor(items, id)
    decreases |items|
  {
    if items != [] {
      ItemsOfOneMore(items[..|items| - 1], events, id);
      ItemsOfSnoc(items, events);
      ItemsOfSnoc(items, events + {id});
    }
  }

  lemma ItemsGrow(items: seq<NewDelivery>, base: set<EventId>, t: EventTable, row: EventRow)
    requires base <= t.Keys && row.event.id !in t
    ensures ItemsOf(items, t[row.event.id := row].Keys - base) ==
            ItemsOf(items, t.Keys - base) + CountFor(items, row.event.id)
  {
    ItemsOfOneMore(items, t.Keys - base, row.event.id);
    assert t[row.event.id := row].Keys - base == (t.Keys - base) + {row.event.id};
  }

  /** The delivery count of a backfill is the number of items whose event it created. */
  lemma {:induction false} BackfillCountsDeliveries(l: Ledger, rows: seq<EventRow>, items: seq<NewDelivery>)
    requires BackfillAll(l, rows, items).Ok?
    ensures var b := BackfillAll(l, rows, items).value;
            b.deliveries == ItemsOf(items, b.ledger.events.Keys - l.events.Keys)
    decreases |rows|
  {
    if rows == [] {
      assert l.events.Keys - l.events.Keys == {};
      ItemsOfNone(items);
    } else {
      var n := |rows| - 1;
      BackfillCountsDeliveries(l, rows[..n], items);
      BackfillCountsCreated(l, rows[..n], items);
      var before := BackfillAll(l, rows[..n], items).value;
      BackfillOneCounts(before, rows[n], items);
      var id := rows[n].event.id;
      if id !in before.ledger.events {
        ItemsGrow(items, l.events.Keys, before.ledger.events, rows[n]);
      }
    }
  }

  lemma {:induction false} ItemsOfNone(items: seq<NewDelivery>)
    ensures ItemsOf(items, {}) == 0
    decreases |items|
  {
    if items != [] {
      ItemsOfNone(items[1..]);
    }
  }

  lemma BackfillOneCounts(b: Backfilled, row: EventRow, items: seq<NewDelivery>)
    requires BackfillOne(b, row, items).Ok?
    ensures var b' := BackfillOne(b, row, items).value;
            if row.event.id in b.ledger.events
            then b'.ledger.events == b.ledger.events && b'.deliveries == b.deliveries
            else && b'.ledger.events == b.ledger.events[row.event.id := row]
                 && b'.deliveries == b.deliveries + CountFor(items, row.event.id)
  {
    assert row.event.id in {row.event.id};
  }
}
