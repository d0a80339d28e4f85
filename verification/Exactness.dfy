/** The stored events are exactly the configured logs of the checkpoint's ancestry. */
module Exactness {
  import opened Common
  import opened Chain
  import opened Records
  import opened Fetch
  import opened FetchTruth
  import opened Ledger

  datatype Config = Config(options: Options, decoder: Decoder)

  ghost predicate ValidConfig(c: Config) {
    ValidOptions(c.options) && KeepsIdentity(c.decoder)
  }

  /** The event is what the configuration makes of a wanted log of its block. */
  ghost predicate BlockEvent(dag: Dag, c: Config, e: Event) {
    e.blockHash in dag && exists log ::
      && log in dag[e.blockHash].logs && MatchesFilter(log, c.options.filter)
      && c.decoder.decode(RawOf(log)) == DecodedAs(e)
  }

  /** ... and its block is an ancestor of `tip` at or above the start block. */
  ghost predicate ChainEvent(dag: Dag, c: Config, tip: Hash, e: Event)
    requires ValidDag(dag)
  {
    && BlockEvent(dag, c, e) && tip in dag
    && c.options.startBlock <= e.blockNumber <= dag[tip].number
    && Ancestor(dag, tip, e.blockNumber) == e.blockHash
  }

  /** The retained history is the newest part of the checkpoint's ancestry, without a gap. */
  ghost predicate HistoryExact(dag: Dag, c: Config, h: History, cp: Checkpoint)
    requires ValidDag(dag) && cp.hash in dag && dag[cp.hash].number == cp.number
  {
    && cp.number in h
    && (forall n | n in h ::
          && c.options.startBlock <= n <= cp.number <= n + c.options.reorgDepth
          && h[n] == CanonicalBlock(n, Ancestor(dag, cp.hash, n), dag[Ancestor(dag, cp.hash, n)].parent))
    && (forall m, n | m in h && m <= n <= cp.number :: n in h)
  }

  ghost predicate TrueCheckpoint(dag: Dag, c: Config, cp: Checkpoint) {
    && cp.hash in dag && dag[cp.hash].number == cp.number
    && c.options.startBlock <= cp.number <= MAX_INT64
  }

  ghost predicate Exact(dag: Dag, c: Config, l: Ledger)
    requires ValidDag(dag)
  {
    && KeyedById(l.events)
    && match l.checkpoint
       case None => l.events == map[] && l.canonical == map[]
       case Some(cp) =>
         && TrueCheckpoint(dag, c, cp)
         && (forall e :: Stored(l, e) <==> ChainEvent(dag, c, cp.hash, e))
         && HistoryExact(dag, c, l.canonical, cp)
  }

  /** The two configurations ask for the same events; batch size, confirmations and reorg depth may differ. */
  ghost predicate SameEvents(c: Config, d: Config) {
    && c.decoder == d.decoder && c.options.filter == d.options.filter
    && c.options.startBlock == d.options.startBlock
  }

  /** A checkpoint determines the event table: however it was reached, the same events are stored. */
  lemma CheckpointDeterminesEvents(dag: Dag, c: Config, l: Ledger, d: Config, m: Ledger)
    requires ValidDag(dag) && Exact(dag, c, l) && Exact(dag, d, m) && SameEvents(c, d)
    requires l.checkpoint == m.checkpoint
    ensures l.events.Keys == m.events.Keys
    ensures forall id | id in l.events :: l.events[id].event == m.events[id].event
  {
    if l.checkpoint.Some? {
      var tip := l.checkpoint.value.hash;
      forall e ensures Stored(l, e) <==> Stored(m, e) {
        assert ChainEvent(dag, c, tip, e) <==> ChainEvent(dag, d, tip, e);
      }
      forall id ensures id in l.events <==> id in m.events {
        if id in l.events { assert Stored(l, l.events[id].event); }
        if id in m.events { assert Stored(m, m.events[id].event); }
      }
      forall id | id in l.events ensures l.events[id].event == m.events[id].event {
        assert Stored(l, l.events[id].event);
      }
    }
  }

  // ------------------------------------------------------------------ commit

  /** The blocks are a true run that starts where the checkpoint left off. */
  ghost predicate Extends(dag: Dag, c: Config, cp: Option<Checkpoint>, from: nat, blocks: seq<CanonicalBlock>) {
    && blocks != [] && TrueBlocks(dag, from, blocks)
    && match cp
       case None => from == c.options.startBlock
       case Some(cp) =>
         && cp.hash in dag && dag[cp.hash].number == cp.number && c.options.startBlock <= cp.number
         && from == cp.number + 1 && dag[blocks[0].hash].parent == cp.hash
  }

  function Tip(from: nat, blocks: seq<CanonicalBlock>): Checkpoint
    requires blocks != []
  {
    Checkpoint(from + |blocks| - 1, blocks[|blocks| - 1].hash)
  }

  /** The new tip's ancestry is the batch above the old checkpoint and the old ancestry below it. */
  lemma BatchAncestry(dag: Dag, c: Config, cp: Option<Checkpoint>, from: nat, blocks: seq<CanonicalBlock>, n: nat)
    requires ValidDag(dag) && Extends(dag, c, cp, from, blocks) && n < from + |blocks|
    ensures var tip := Tip(from, blocks);
            && tip.hash in dag && dag[tip.hash].number == tip.number
            && (n >= from ==> Ancestor(dag, tip.hash, n) == blocks[n - from].hash)
            && (cp.Some? && n < from ==> Ancestor(dag, tip.hash, n) == Ancestor(dag, cp.value.hash, n))
  {
    var hs := HashesOf(blocks);
    var last := |hs| - 1;
    assert hs[last] in dag && dag[hs[last]].number == from + last;
    if n >= from {
      LinkedIsAncestry(dag, from, hs, last, n - from);
    } else if cp.Some? {
      var first := hs[0];
      LinkedIsAncestry(dag, from, hs, last, 0);
      AncestorOfAncestor(dag, hs[last], from, n);
      assert ValidBlock(dag, first);
      assert Ancestor(dag, first, n) == Ancestor(dag, dag[first].parent, n);
    }
  }

  lemma {:induction false} PreparedEvents(d: Decoder, logs: seq<RawLog>, now: int, e: Event)
    requires Prepare(d, logs, now).Ok?
    ensures EventRow(e, now) in Prepare(d, logs, now).value.rows <==>
            exists r :: r in logs && d.decode(r) == DecodedAs(e)
    decreases |logs|
  {
    if logs != [] {
      var n := |logs| - 1;
      PreparedEvents(d, logs[..n], now, e);
      var rows := Prepare(d, logs, now).value.rows;
      var before := Prepare(d, logs[..n], now).value.rows;
      assert logs == logs[..n] + [logs[n]];
      assert EventRow(e, now) in rows <==> EventRow(e, now) in before || d.decode(logs[n]) == DecodedAs(e);
      if exists r :: r in logs && d.decode(r) == DecodedAs(e) {
        var r :| r in logs && d.decode(r) == DecodedAs(e);
        if r != logs[n] { assert r in logs[..n]; }
      }
    }
  }

  lemma {:induction false} PreparedTimes(d: Decoder, logs: seq<RawLog>, now: int)
    requires Prepare(d, logs, now).Ok?
    ensures forall row | row in Prepare(d, logs, now).value.rows :: row == EventRow(row.event, now)
    decreases |logs|
  {
    if logs != [] {
      PreparedTimes(d, logs[..|logs| - 1], now);
    }
  }

  ghost predicate InBatch(from: nat, b: Batch, e: Event) {
    from <= e.blockNumber < from + |b.blocks| && e.blockHash == b.blocks[e.blockNumber - from].hash
  }

  lemma DecodedLogsAreBatchEvents(dag: Dag, c: Config, from: nat, b: Batch, r: RawLog, e: Event)
    requires ValidConfig(c) && Sound(dag, c.options.filter, from, b)
    requires r in b.logs && c.decoder.decode(r) == DecodedAs(e)
    ensures BlockEvent(dag, c, e) && InBatch(from, b, e)
  {
    var log :| BatchLog(dag, c.options.filter, from, b.blocks, log) && RawOf(log) == r;
    assert c.decoder.decode(r).event == e;
    assert log in dag[e.blockHash].logs;
  }

  lemma BatchEventsAreDecoded(dag: Dag, c: Config, from: nat, b: Batch, e: Event) returns (r: RawLog)
    requires ValidDag(dag) && ValidConfig(c) && Complete(dag, c.options.filter, from, b)
    requires BlockEvent(dag, c, e) && InBatch(from, b, e)
    ensures r in b.logs && c.decoder.decode(r) == DecodedAs(e)
  {
    var log :| log in dag[e.blockHash].logs && MatchesFilter(log, c.options.filter)
               && c.decoder.decode(RawOf(log)) == DecodedAs(e);
    r := RawOf(log);
    assert ValidBlock(dag, e.blockHash);
    assert c.decoder.decode(r).event == e;
    assert BatchLog(dag, c.options.filter, from, b.blocks, log);
  }

  /** The prepared rows of a genuine batch are exactly the configured events of its blocks. */
  lemma PreparedRowsAreBatchEvents(dag: Dag, c: Config, from: nat, b: Batch, now: int, e: Event)
    requires ValidDag(dag) && ValidConfig(c) && Genuine(dag, c.options.filter, from, b)
    requires Prepare(c.decoder, b.logs, now).Ok?
    ensures (exists row :: row in Prepare(c.decoder, b.logs, now).value.rows && row.event == e) <==>
            BlockEvent(dag, c, e) && InBatch(from, b, e)
  {
    var rows := Prepare(c.decoder, b.logs, now).value.rows;
    PreparedEvents(c.decoder, b.logs, now, e);
    PreparedTimes(c.decoder, b.logs, now);
    assert (exists row :: row in rows && row.event == e) <==> EventRow(e, now) in rows;
    if EventRow(e, now) in rows {
      var r :| r in b.logs && c.decoder.decode(r) == DecodedAs(e);
      DecodedLogsAreBatchEvents(dag, c, from, b, r, e);
    }
    if BlockEvent(dag, c, e) && InBatch(from, b, e) {
      var r := BatchEventsAreDecoded(dag, c, from, b, e);
    }
  }

  function PersistOf(b: Batch, p: Prepared): Persist {
    Persist(p.rows, p.deliveries, b.blocks, b.checkpoint)
  }

  /** After a commit an event is stored iff it was stored before or the batch supplied it. */
  lemma CommitStores(l: Ledger, p: Persist, retain: nat, l': Ledger, e: Event)
    requires KeyedById(l.events) && SaveBatch(l, p, retain) == Ok(l')
    ensures KeyedById(l'.events)
    ensures Stored(l', e) <==> Stored(l, e) || exists row :: row in p.rows && row.event == e
  {
    InsertEventsAdds(l.events, p.rows);
    var i := InsertEvents(l.events, p.rows).value;
    forall id | id in i.table ensures i.table[id].event.id == id {
      if id !in l.events { assert id in i.added; }
    }
    if Stored(l', e) && !Stored(l, e) {
      assert e.id !in l.events;
      assert i.table[e.id] in p.rows;
    }
  }

  /** One retained row is the block of the ancestry at its height. */
  ghost predicate RowExact(dag: Dag, tip: Hash, h: History, n: nat)
    requires ValidDag(dag) && tip in dag && n in h
  {
    n <= dag[tip].number && h[n] == CanonicalBlock(n, Ancestor(dag, tip, n), dag[Ancestor(dag, tip, n)].parent)
  }

  lemma UpsertedRowIsExact(
      dag: Dag, c: Config, cp: Option<Checkpoint>, from: nat, blocks: seq<CanonicalBlock>,
      h: History, h': History, n: nat)
    requires ValidDag(dag) && Extends(dag, c, cp, from, blocks)
    requires forall i | 0 <= i < |blocks| :: blocks[i].number == from + i
    requires if cp.None? then h == map[] else HistoryExact(dag, c, h, cp.value)
    requires UpsertBlocks(h, blocks) == Ok(h') && n in h'
    ensures Tip(from, blocks).hash in dag && RowExact(dag, Tip(from, blocks).hash, h', n)
  {
    UpsertRun(h, blocks, from);
    assert n < from + |blocks|;
    BatchAncestry(dag, c, cp, from, blocks, n);
    if n >= from {
      assert h'[n] == blocks[n - from];
    } else {
      assert h'[n] == h[n] && cp.Some?;
    }
  }

  lemma CommitKeepsHistory(
      dag: Dag, c: Config, cp: Option<Checkpoint>, from: nat, blocks: seq<CanonicalBlock>, h: History, up: History)
    requires ValidDag(dag) && ValidConfig(c) && Extends(dag, c, cp, from, blocks)
    requires forall i | 0 <= i < |blocks| :: blocks[i].number == from + i
    requires if cp.None? then h == map[] else HistoryExact(dag, c, h, cp.value)
    requires UpsertBlocks(h, blocks) == Ok(up)
    ensures var tip := Tip(from, blocks);
            && tip.hash in dag && dag[tip.hash].number == tip.number
            && HistoryExact(dag, c, Retained(up, tip, c.options.reorgDepth + 1), tip)
  {
    var tip := Tip(from, blocks);
    UpsertRun(h, blocks, from);
    BatchAncestry(dag, c, cp, from, blocks, 0);
    var kept := Retained(up, tip, c.options.reorgDepth + 1);
    forall n | n in kept ensures RowExact(dag, tip.hash, kept, n) {
      UpsertedRowIsExact(dag, c, cp, from, blocks, h, up, n);
    }
  }

  /** The new ancestry's events are the old ancestry's and those the batch supplies. */
  lemma BatchSuppliesChainEvents(
      dag: Dag, c: Config, cp: Option<Checkpoint>, from: nat, b: Batch, now: int, p: Prepared, e: Event)
    requires ValidDag(dag) && ValidConfig(c) && Genuine(dag, c.options.filter, from, b)
    requires Extends(dag, c, cp, from, b.blocks) && Prepare(c.decoder, b.logs, now) == Ok(p)
    ensures ChainEvent(dag, c, b.checkpoint.hash, e) <==>
              || (cp.Some? && ChainEvent(dag, c, cp.value.hash, e))
              || (exists row :: row in p.rows && row.event == e)
  {
    PreparedRowsAreBatchEvents(dag, c, from, b, now, e);
    ChainEventsSplit(dag, c, cp, from, b.blocks, e);
  }

  /** The events of the new ancestry are those of the old one and those of the batch. */
  lemma ChainEventsSplit(
      dag: Dag, c: Config, cp: Option<Checkpoint>, from: nat, blocks: seq<CanonicalBlock>, e: Event)
    requires ValidDag(dag) && Extends(dag, c, cp, from, blocks)
    ensures ChainEvent(dag, c, Tip(from, blocks).hash, e) <==>
              || (cp.Some? && ChainEvent(dag, c, cp.value.hash, e))
              || (BlockEvent(dag, c, e) && from <= e.blockNumber < from + |blocks|
                  && e.blockHash == blocks[e.blockNumber - from].hash)
  {
    BatchAncestry(dag, c, cp, from, blocks, 0);
    if e.blockNumber < from + |blocks| {
      BatchAncestry(dag, c, cp, from, blocks, e.blockNumber);
    }
  }

  lemma CommitKeepsKeys(l: Ledger, p: Persist, retain: nat, l': Ledger)
    requires KeyedById(l.events) && SaveBatch(l, p, retain) == Ok(l')
    ensures KeyedById(l'.events)
  {
    forall id | id in l'.events ensures l'.events[id].event.id == id {
      CommitStores(l, p, retain, l', l'.events[id].event);
    }
  }

  /** Committing a genuine batch that follows the checkpoint keeps the ledger exact. */
  lemma CommitKeepsExact(dag: Dag, c: Config, l: Ledger, from: nat, b: Batch, now: int, p: Prepared, l': Ledger)
    requires ValidDag(dag) && ValidConfig(c) && Exact(dag, c, l)
    requires Genuine(dag, c.options.filter, from, b) && Extends(dag, c, l.checkpoint, from, b.blocks)
    requires forall i | 0 <= i < |b.blocks| :: b.blocks[i].number == from + i
    requires Prepare(c.decoder, b.logs, now) == Ok(p)
    requires SaveBatch(l, PersistOf(b, p), c.options.reorgDepth + 1) == Ok(l')
    ensures Exact(dag, c, l') && l'.checkpoint == Some(b.checkpoint)
  {
    var up := UpsertBlocks(l.canonical, b.blocks).value;
    CommitKeepsHistory(dag, c, l.checkpoint, from, b.blocks, l.canonical, up);
    CommitKeepsKeys(l, PersistOf(b, p), c.options.reorgDepth + 1, l');
    forall e ensures Stored(l', e) <==> ChainEvent(dag, c, b.checkpoint.hash, e) {
      CommitStores(l, PersistOf(b, p), c.options.reorgDepth + 1, l', e);
      BatchSuppliesChainEvents(dag, c, l.checkpoint, from, b, now, p, e);
    }
  }

  // ---------------------------------------------------------- rewind and reset

  /** Rewinding to a retained block keeps the ledger exact. */
  lemma RewindKeepsExact(dag: Dag, c: Config, l: Ledger, n: nat)
    requires ValidDag(dag) && Exact(dag, c, l) && l.checkpoint.Some? && n in l.canonical
    ensures Exact(dag, c, RewindCanonical(l, n + 1, l.canonical[n].hash))
    ensures RewindCanonical(l, n + 1, l.canonical[n].hash).checkpoint == Some(Checkpoint(n, l.canonical[n].hash))
  {
    var cp := l.checkpoint.value;
    var a := l.canonical[n].hash;
    var l' := RewindCanonical(l, n + 1, a);
    assert a == Ancestor(dag, cp.hash, n);
    forall e ensures Stored(l', e) <==> ChainEvent(dag, c, a, e) {
      assert Stored(l', e) <==> Stored(l, e) && e.blockNumber <= n;
      if e.blockNumber <= n { AncestorOfAncestor(dag, cp.hash, n, e.blockNumber); }
    }
    forall m | m in l'.canonical
      ensures l'.canonical[m] == CanonicalBlock(m, Ancestor(dag, a, m), dag[Ancestor(dag, a, m)].parent)
    {
      AncestorOfAncestor(dag, cp.hash, n, m);
    }
  }

  /** A reset to the start block empties the chain's tables. */
  lemma ResetEmpties(dag: Dag, c: Config, l: Ledger)
    requires ValidDag(dag) && ValidConfig(c) && Exact(dag, c, l) && l.checkpoint.Some?
    ensures var r := ResetFrom(l, c.options.startBlock);
            && r.Ok? && Exact(dag, c, r.value)
            && r.value.checkpoint == None && r.value.events == map[] && r.value.canonical == map[]
  {
    var r := ResetFrom(l, c.options.startBlock).value;
    forall id | id in l.events ensures id !in r.events {
      assert Stored(l, l.events[id].event);
    }
    assert r.events == map[];
    assert r.canonical == map[];
  }
}
