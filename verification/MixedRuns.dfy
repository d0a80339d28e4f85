/**
 Runs that mix scanning with operator skips and backfill batches. Nothing here
 trusts the provider: what is proved follows from the scanner's own checks.
 */
module MixedRuns {
  import opened Common
  import opened Chain
  import opened Records
  import opened Provider
  import opened Fetch
  import opened FetchTruth
  import opened Ledger
  import opened Exactness
  import Runs = ScannerRuns

  datatype Step =
    | Scan(step: Runs.Step)
    | Skip(previous: Option<Checkpoint>, target: CanonicalBlock)
    | Backfill(rows: seq<EventRow>, items: seq<NewDelivery>)

  /** Every event of the batch is at or below the checkpoint. */
  ghost predicate Behind(c: Config, l: Ledger, rows: seq<EventRow>) {
    forall r | r in rows :: r.event.blockNumber < Runs.NextBlock(c, l)
  }

  ghost predicate Issued(rpc: Rpc, c: Config, l: Ledger, s: Step) {
    match s
    case Scan(step) => Runs.Issued(rpc, c, l, step)
    case Skip(previous, target) => SkipTo(l, c.options.startBlock, c.options.reorgDepth, previous, target).Ok?
    case Backfill(rows, items) => Behind(c, l, rows) && BackfillAll(l, rows, items).Ok?
  }

  ghost function Apply(rpc: Rpc, c: Config, l: Ledger, s: Step): Ledger
    requires Issued(rpc, c, l, s)
  {
    match s
    case Scan(step) => Runs.Apply(rpc, c, l, step)
    case Skip(previous, target) => SkipTo(l, c.options.startBlock, c.options.reorgDepth, previous, target).value
    case Backfill(rows, items) => BackfillAll(l, rows, items).value.ledger
  }

  ghost predicate Run(rpc: Rpc, c: Config, l: Ledger, steps: seq<Step>)
    decreases |steps|
  {
    steps == [] || (Issued(rpc, c, l, steps[0]) && Run(rpc, c, Apply(rpc, c, l, steps[0]), steps[1..]))
  }

  ghost function After(rpc: Rpc, c: Config, l: Ledger, steps: seq<Step>): Ledger
    requires Run(rpc, c, l, steps)
    decreases |steps|
  {
    if steps == [] then l else After(rpc, c, Apply(rpc, c, l, steps[0]), steps[1..])
  }

  // ------------------------------------------------------------- invariants

  /** Every stored event whose height has a retained block carries that block's hash. */
  ghost predicate Agree(l: Ledger) {
    forall id | id in l.events && l.events[id].event.blockNumber in l.canonical ::
      l.canonical[l.events[id].event.blockNumber].hash == l.events[id].event.blockHash
  }

  ghost predicate NoneAhead(c: Config, l: Ledger) {
    forall id | id in l.events :: l.events[id].event.blockNumber < Runs.NextBlock(c, l)
  }

  /** Retained rows end at the checkpoint and lie within the reorg depth below it. */
  ghost predicate Capped(c: Config, l: Ledger) {
    && KeyedByNumber(l.canonical)
    && match l.checkpoint
       case None => l.canonical == map[]
       case Some(cp) =>
         && cp.number in l.canonical && l.canonical[cp.number].hash == cp.hash
         && forall n | n in l.canonical :: c.options.startBlock <= n <= cp.number <= n + c.options.reorgDepth
  }

  /** Without a gap, and each row's parent is the row below it. */
  ghost predicate Chained(l: Ledger) {
    && (forall m, n, k | m in l.canonical && n in l.canonical && m <= k <= n :: k in l.canonical)
    && (forall m, n | m in l.canonical && n in l.canonical && n == m + 1 ::
          l.canonical[n].parent == l.canonical[m].hash)
  }

  ghost predicate Inv(c: Config, l: Ledger) {
    Agree(l) && NoneAhead(c, l) && Capped(c, l)
  }

  /** The scan's prune and the skip's prune keep the same rows. */
  lemma PrunesAgree(h: History, cp: Checkpoint, depth: nat)
    ensures Retained(h, cp, depth + 1) == if cp.number > depth then Prune(h, cp.number - depth) else h
  {
  }

  // ----------------------------------------------------------------- commits

  /** The blocks are consecutive and linked, and follow the checkpoint. */
  ghost predicate Follows(c: Config, l: Ledger, from: nat, to: nat, blocks: seq<CanonicalBlock>) {
    && from == Runs.NextBlock(c, l) && from <= to && |blocks| == to - from + 1
    && (forall i | 0 <= i < |blocks| :: blocks[i].number == from + i)
    && LinksUp(blocks, from, Runs.ExpectedParent(l))
  }

  /** What a commit of these blocks makes of the retained history. */
  ghost predicate HistoryExtended(
      c: Config, h: History, h': History, from: nat, to: nat, blocks: seq<CanonicalBlock>)
    requires from <= to && |blocks| == to - from + 1
  {
    && (forall n :: n in h' <==> (n in h || from <= n <= to) && to <= n + c.options.reorgDepth)
    && (forall n | n in h' :: h'[n] == if from <= n <= to then blocks[n - from] else h[n])
  }

  /** What it makes of the events: none changes, and the new ones lie in the blocks. */
  ghost predicate EventsExtended(t: EventTable, t': EventTable, from: nat, to: nat, blocks: seq<CanonicalBlock>)
    requires from <= to && |blocks| == to - from + 1
  {
    && (forall id | id in t :: id in t' && t'[id] == t[id])
    && (forall id | id in t' && id !in t :: InBlocks(t'[id].event, from, to, blocks))
  }

  ghost predicate InBlocks(e: Event, from: nat, to: nat, blocks: seq<CanonicalBlock>)
    requires from <= to && |blocks| == to - from + 1
  {
    from <= e.blockNumber <= to && e.blockHash == blocks[e.blockNumber - from].hash
  }

  ghost predicate Extended(c: Config, l: Ledger, l': Ledger, from: nat, to: nat, blocks: seq<CanonicalBlock>)
    requires from <= to && |blocks| == to - from + 1
  {
    && l'.checkpoint == Some(Checkpoint(to, blocks[to - from].hash))
    && HistoryExtended(c, l.canonical, l'.canonical, from, to, blocks)
    && EventsExtended(l.events, l'.events, from, to, blocks)
  }

  lemma PreparedRowHasLog(d: Decoder, logs: seq<RawLog>, now: int, row: EventRow) returns (r: RawLog)
    requires KeepsIdentity(d) && Prepare(d, logs, now).Ok? && row in Prepare(d, logs, now).value.rows
    ensures r in logs && r.blockNumber == row.event.blockNumber && r.blockHash == row.event.blockHash
  {
    PreparedTimes(d, logs, now);
    PreparedEvents(d, logs, now, row.event);
    r :| r in logs && d.decode(r) == DecodedAs(row.event);
    assert d.decode(r).event == row.event;
  }

  lemma CommittedRows(rpc: Rpc, c: Config, l: Ledger, s: Runs.Step, row: EventRow)
    requires ValidConfig(c) && s.Commit? && Runs.Issued(rpc, c, l, s) && row in s.prepared.rows
    ensures |s.batch.blocks| == s.to - s.from + 1 && InBlocks(row.event, s.from, s.to, s.batch.blocks)
  {
    var r := PreparedRowHasLog(c.decoder, s.batch.logs, s.now, row);
    AcceptedShape(rpc, c.options.filter, s.t0, s.from, s.to, Runs.ExpectedParent(l), s.batch);
  }

  lemma CommitExtendsHistory(rpc: Rpc, c: Config, l: Ledger, s: Runs.Step)
    requires s.Commit? && Runs.Issued(rpc, c, l, s)
    ensures Follows(c, l, s.from, s.to, s.batch.blocks)
    ensures var l' := Runs.Apply(rpc, c, l, s);
            && l'.checkpoint == Some(Checkpoint(s.to, s.batch.blocks[s.to - s.from].hash))
            && HistoryExtended(c, l.canonical, l'.canonical, s.from, s.to, s.batch.blocks)
  {
    AcceptedShape(rpc, c.options.filter, s.t0, s.from, s.to, Runs.ExpectedParent(l), s.batch);
    UpsertedAndPruned(c, l.canonical, s.from, s.to, s.batch.blocks, s.batch.checkpoint);
  }

  lemma UpsertedAndPruned(c: Config, h: History, from: nat, to: nat, blocks: seq<CanonicalBlock>, cp: Checkpoint)
    requires from <= to && |blocks| == to - from + 1 && cp.number == to && UpsertBlocks(h, blocks).Ok?
    requires forall i | 0 <= i < |blocks| :: blocks[i].number == from + i
    ensures var kept := Retained(UpsertBlocks(h, blocks).value, cp, c.options.reorgDepth + 1);
            HistoryExtended(c, h, kept, from, to, blocks)
  {
    UpsertRun(h, blocks, from);
  }

  lemma CommitExtends(rpc: Rpc, c: Config, l: Ledger, s: Runs.Step)
    requires ValidConfig(c) && s.Commit? && Runs.Issued(rpc, c, l, s)
    ensures Follows(c, l, s.from, s.to, s.batch.blocks)
    ensures Extended(c, l, Runs.Apply(rpc, c, l, s), s.from, s.to, s.batch.blocks)
  {
    CommitExtendsHistory(rpc, c, l, s);
    InsertEventsContents(l.events, s.prepared.rows);
    var l' := Runs.Apply(rpc, c, l, s);
    forall id | id in l'.events && id !in l.events
      ensures InBlocks(l'.events[id].event, s.from, s.to, s.batch.blocks)
    {
      CommittedRows(rpc, c, l, s, l'.events[id]);
    }
  }

  /** No stored event contradicts a block that the commit is about to retain. */
  ghost predicate Uncontested(c: Config, l: Ledger, from: nat, to: nat, blocks: seq<CanonicalBlock>)
    requires from <= to && |blocks| == to - from + 1
  {
    forall id | id in l.events && Contestable(c, l.events[id].event, from, to) ::
      InBlocks(l.events[id].event, from, to, blocks)
  }

  predicate Contestable(c: Config, e: Event, from: nat, to: nat) {
    from <= e.blockNumber <= to <= e.blockNumber + c.options.reorgDepth
  }

  /**
   saveBatch compares no hash with events that are stored already: a commit keeps the
   agreement if and only if no event stored ahead of the checkpoint contradicts its blocks.
   */
  lemma CommitAgreesIff(rpc: Rpc, c: Config, l: Ledger, s: Runs.Step)
    requires ValidConfig(c) && Agree(l) && s.Commit? && Runs.Issued(rpc, c, l, s)
    ensures |s.batch.blocks| == s.to - s.from + 1
    ensures Agree(Runs.Apply(rpc, c, l, s)) <==> Uncontested(c, l, s.from, s.to, s.batch.blocks)
  {
    CommitExtends(rpc, c, l, s);
    ExtendedAgreesIff(c, l, Runs.Apply(rpc, c, l, s), s.from, s.to, s.batch.blocks);
  }

  lemma ExtendedAgreesIff(c: Config, l: Ledger, l': Ledger, from: nat, to: nat, blocks: seq<CanonicalBlock>)
    requires Agree(l) && Follows(c, l, from, to, blocks) && Extended(c, l, l', from, to, blocks)
    ensures Agree(l') <==> Uncontested(c, l, from, to, blocks)
  {
    if Agree(l') {
      forall id | id in l.events && Contestable(c, l.events[id].event, from, to)
        ensures InBlocks(l.events[id].event, from, to, blocks)
      {
        assert l'.events[id] == l.events[id];
      }
    }
    if Uncontested(c, l, from, to, blocks) {
      forall id | id in l'.events && l'.events[id].event.blockNumber in l'.canonical
        ensures l'.canonical[l'.events[id].event.blockNumber].hash == l'.events[id].event.blockHash
      {
        if id in l.events { assert l'.events[id] == l.events[id]; }
      }
    }
  }

  lemma CommitKeepsInv(rpc: Rpc, c: Config, l: Ledger, s: Runs.Step)
    requires ValidConfig(c) && Inv(c, l) && s.Commit? && Runs.Issued(rpc, c, l, s)
    ensures Inv(c, Runs.Apply(rpc, c, l, s))
    ensures Chained(l) ==> Chained(Runs.Apply(rpc, c, l, s))
  {
    CommitExtends(rpc, c, l, s);
    ExtendedAgreesIff(c, l, Runs.Apply(rpc, c, l, s), s.from, s.to, s.batch.blocks);
    ExtendedIsCapped(c, l, Runs.Apply(rpc, c, l, s), s.from, s.to, s.batch.blocks);
    if Chained(l) {
      ExtendedIsChained(c, l, Runs.Apply(rpc, c, l, s), s.from, s.to, s.batch.blocks);
    }
  }

  lemma ExtendedIsCapped(c: Config, l: Ledger, l': Ledger, from: nat, to: nat, blocks: seq<CanonicalBlock>)
    requires Capped(c, l) && NoneAhead(c, l) && Follows(c, l, from, to, blocks) && Extended(c, l, l', from, to, blocks)
    ensures Capped(c, l') && NoneAhead(c, l') && Uncontested(c, l, from, to, blocks)
  {
  }

  lemma ExtendedIsChained(c: Config, l: Ledger, l': Ledger, from: nat, to: nat, blocks: seq<CanonicalBlock>)
    requires Capped(c, l) && Chained(l) && Follows(c, l, from, to, blocks) && Extended(c, l, l', from, to, blocks)
    ensures Chained(l')
  {
    var h := l'.canonical;
    forall m, n | m in h && n in h && n == m + 1 ensures h[n].parent == h[m].hash {
      if m >= from {
        assert h[n] == blocks[n - from] && h[m] == blocks[m - from];
      } else if n == from {
        assert l.checkpoint.Some? && h[m] == l.canonical[m];
      }
    }
  }

  // -------------------------------------------------- the other kinds of step

  lemma RewindKeepsInv(c: Config, l: Ledger, n: nat)
    requires Inv(c, l) && l.checkpoint.Some? && n in l.canonical
    ensures var l' := RewindCanonical(l, n + 1, l.canonical[n].hash); Inv(c, l') && (Chained(l) ==> Chained(l'))
  {
  }

  lemma ResetKeepsInv(c: Config, l: Ledger)
    requires Inv(c, l) && l.checkpoint.Some? && c.options.startBlock <= MAX_INT64
    ensures var l' := ResetFrom(l, c.options.startBlock).value; Inv(c, l') && Chained(l')
  {
  }

  lemma SkipKeepsInv(c: Config, l: Ledger, previous: Option<Checkpoint>, target: CanonicalBlock, l': Ledger)
    requires Inv(c, l) && SkipTo(l, c.options.startBlock, c.options.reorgDepth, previous, target) == Ok(l')
    ensures Inv(c, l') && l'.events == l.events && l'.deliveries == l.deliveries
  {
  }

  lemma {:induction false} BackfillKeepsInv(c: Config, l: Ledger, rows: seq<EventRow>, items: seq<NewDelivery>)
    requires Inv(c, l) && Behind(c, l, rows) && BackfillAll(l, rows, items).Ok?
    ensures var l' := BackfillAll(l, rows, items).value.ledger;
            Inv(c, l') && l'.checkpoint == l.checkpoint && l'.canonical == l.canonical
    decreases |rows|
  {
    if rows != [] {
      var n := |rows| - 1;
      BackfillKeepsInv(c, l, rows[..n], items);
      var m := BackfillAll(l, rows[..n], items).value.ledger;
      assert rows[n] in rows;
      BackfillOneKeepsInv(c, BackfillAll(l, rows[..n], items).value, rows[n], items);
    }
  }

  lemma BackfillOneKeepsInv(c: Config, b: Backfilled, row: EventRow, items: seq<NewDelivery>)
    requires Inv(c, b.ledger) && row.event.blockNumber < Runs.NextBlock(c, b.ledger) && BackfillOne(b, row, items).Ok?
    ensures var l' := BackfillOne(b, row, items).value.ledger;
            Inv(c, l') && l'.checkpoint == b.ledger.checkpoint && l'.canonical == b.ledger.canonical
  {
  }

  lemma ScanKeepsInv(rpc: Rpc, c: Config, l: Ledger, s: Runs.Step)
    requires ValidConfig(c) && Inv(c, l) && Runs.Issued(rpc, c, l, s)
    ensures Inv(c, Runs.Apply(rpc, c, l, s)) && (Chained(l) ==> Chained(Runs.Apply(rpc, c, l, s)))
  {
    match s
    case Commit(_, _, _, _, _, _) => CommitKeepsInv(rpc, c, l, s);
    case Rewind(n) => RewindKeepsInv(c, l, n);
    case Reset => ResetKeepsInv(c, l);
    case Deliver(_) =>
  }

  lemma StepKeepsInv(rpc: Rpc, c: Config, l: Ledger, s: Step)
    requires ValidConfig(c) && Inv(c, l) && Issued(rpc, c, l, s)
    ensures Inv(c, Apply(rpc, c, l, s))
    ensures Chained(l) && !s.Skip? ==> Chained(Apply(rpc, c, l, s))
  {
    match s
    case Scan(step) => ScanKeepsInv(rpc, c, l, step);
    case Skip(previous, target) => SkipKeepsInv(c, l, previous, target, Apply(rpc, c, l, s));
    case Backfill(rows, items) => BackfillKeepsInv(c, l, rows, items);
  }

  lemma {:induction false} RunKeepsInv(rpc: Rpc, c: Config, l: Ledger, steps: seq<Step>)
    requires ValidConfig(c) && Inv(c, l) && Run(rpc, c, l, steps)
    ensures Inv(c, After(rpc, c, l, steps))
    ensures Chained(l) && (forall s | s in steps :: !s.Skip?) ==> Chained(After(rpc, c, l, steps))
    decreases |steps|
  {
    if steps != [] {
      assert steps[0] in steps;
      StepKeepsInv(rpc, c, l, steps[0]);
      RunKeepsInv(rpc, c, Apply(rpc, c, l, steps[0]), steps[1..]);
    }
  }

  /**
   In every mixed run, whatever the provider answers: no retained block lies above the checkpoint, all lie
   within the reorg depth below it, the checkpoint's own row is among them, and stored events agree with
   them. Without skips they also form one gapless hash-linked chain.
   */
  lemma EveryMixedRun(rpc: Rpc, c: Config, steps: seq<Step>)
    requires ValidConfig(c) && Run(rpc, c, EMPTY, steps)
    ensures Capped(c, After(rpc, c, EMPTY, steps)) && Agree(After(rpc, c, EMPTY, steps))
    ensures (forall s | s in steps :: !s.Skip?) ==> Chained(After(rpc, c, EMPTY, steps))
  {
    RunKeepsInv(rpc, c, EMPTY, steps);
  }

  // ------------------------------------- why backfills must stay behind the checkpoint

  const PLAIN := Config(Options(1, 1, 0, 1, Filter([], [])), Decoder(_ => Unconfigured, _ => None))
  const EARLY := EventRow(Event(EventId(7, 0), 1, 2, 9, 0, 0, [], [], []), 0)

  /** Serves block 5 at height 1, without logs. */
  const OTHER_BRANCH := Rpc(
    SingleCall, _ => true, _ => Some(1), (t, n) => if n == 1 then Some(Header(1, 1)) else None, (t, n) => None,
    (t, n) => if n == 1 then Some(CanonicalHeader(5, 1)) else None,
    (t, from, to) => BatchFailed, (t, from, to) => Some([]))

  /** A backfill that runs ahead of the checkpoint can leave events of a branch the scan then commits against. */
  lemma BackfillAheadDisagrees()
    ensures ValidConfig(PLAIN) && BackfillAll(EMPTY, [EARLY], []).Ok?
    ensures var l := BackfillAll(EMPTY, [EARLY], []).value.ledger;
            Agree(l) && exists s: Runs.Step ::
              Runs.Issued(OTHER_BRANCH, PLAIN, l, s) && !Agree(Runs.Apply(OTHER_BRANCH, PLAIN, l, s))
  {
    var id, blank := EARLY.event.id, Backfilled(EMPTY, 0, 0, 0);
    assert [EARLY][..0] == [] && BackfillAll(EMPTY, [], []) == Ok(blank);
    assert id in {id} && InsertEvent(EMPTY.events, EARLY) == Ok(Inserted(map[id := EARLY], {id}));
    assert BackfillOne(blank, EARLY, []) == Ok(Backfilled(EMPTY.(events := map[id := EARLY]), 1, 0, 0));
    var l := BackfillAll(EMPTY, [EARLY], []).value.ledger;
    var rpc := OTHER_BRANCH;
    assert HeadersRead(rpc, 0, 1, 1);
    assert BlockAt(rpc, 0, 1, 1, 1) == CanonicalBlock(1, 5, 1);
    var b := Batch([], BlocksRead(rpc, 0, 1, 1), Checkpoint(1, 5));
    assert b.blocks == [CanonicalBlock(1, 5, 1)] && b.blocks[..0] == [];
    var s := Runs.Commit(1, 1, 0, b, Prepared([], []), 0);
    assert Runs.Issued(rpc, PLAIN, l, s);
    var l' := Runs.Apply(rpc, PLAIN, l, s);
    assert EARLY.event.id in l'.events && 1 in l'.canonical && l'.canonical[1].hash == 5;
  }
}
