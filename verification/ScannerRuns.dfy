/**
 Whole runs of one scanner over the ledger: commits, rewinds and resets, with any
 reorganisation between fetches and any delivery work in between.
 */
module ScannerRuns {
  import opened Common
  import opened Chain
  import opened Records
  import opened Provider
  import opened Fetch
  import opened FetchTruth
  import opened Ledger
  import opened Exactness
  import Routing
  import Outbox

  datatype Step =
    | Commit(from: nat, to: nat, t0: nat, batch: Batch, prepared: Prepared, now: int)
    | Rewind(number: nat)
    | Reset
    | Deliver(table: Outbox.Table)

  function NextBlock(c: Config, l: Ledger): nat {
    match l.checkpoint case None => c.options.startBlock case Some(cp) => cp.number + 1
  }

  function ExpectedParent(l: Ledger): Option<Hash> {
    match l.checkpoint case None => None case Some(cp) => Some(cp.hash)
  }

  /** What the scanner has established, without any trust in the provider, when it issues a store call. */
  ghost predicate Issued(rpc: Rpc, c: Config, l: Ledger, s: Step) {
    match s
    case Commit(from, to, t0, b, p, now) =>
      && from == NextBlock(c, l) && from <= to < MAX_UINT64
      && Accepts(rpc, c.options.filter, t0, from, to, ExpectedParent(l)) && IsBatch(rpc, t0, from, to, b)
      && Prepare(c.decoder, b.logs, now) == Ok(p)
      && SaveBatch(l, PersistOf(b, p), c.options.reorgDepth + 1).Ok?
    case Rewind(n) => l.checkpoint.Some? && n in l.canonical
    case Reset => l.checkpoint.Some? && c.options.startBlock <= MAX_INT64
    case Deliver(table) => table.Keys == l.deliveries.Keys
  }

  ghost function Apply(rpc: Rpc, c: Config, l: Ledger, s: Step): Ledger
    requires Issued(rpc, c, l, s)
  {
    match s
    case Commit(_, _, _, b, p, _) => SaveBatch(l, PersistOf(b, p), c.options.reorgDepth + 1).value
    case Rewind(n) => RewindCanonical(l, n + 1, l.canonical[n].hash)
    case Reset => ResetFrom(l, c.options.startBlock).value
    case Deliver(table) => l.(deliveries := table)
  }

  /**
   Reorganisations within a fetch may touch neither the parents nor the logged blocks it reads: exactly
   what makes its batch genuine. Other changes of the view, and all changes between fetches, are free.
   */
  ghost predicate Coherent(w: World, rpc: Rpc, f: Filter, s: Step) {
    s.Commit? && s.from <= s.to ==>
      ParentsAgree(w, rpc, s.t0, s.from, s.to) && LogViewHolds(w, rpc, f, s.t0, s.from, s.to)
  }

  ghost predicate Run(rpc: Rpc, c: Config, l: Ledger, steps: seq<Step>)
    decreases |steps|
  {
    steps == [] || (Issued(rpc, c, l, steps[0]) && Run(rpc, c, Apply(rpc, c, l, steps[0]), steps[1..]))
  }

  ghost function After(rpc: Rpc, c: Config, l: Ledger, steps: seq<Step>): Ledger
    requires Run(rpc, c, l, steps)
    decreases |steps|
  {
    if steps == [] then l else After(rpc, c, Apply(rpc, c, l, steps[0]), steps[1..])
  }

  lemma CommitFollows(w: World, rpc: Rpc, c: Config, l: Ledger, s: Step)
    requires ValidWorld(w) && Honest(w, rpc, c.options.filter) && Exact(w.dag, c, l)
    requires s.Commit? && Issued(rpc, c, l, s) && Coherent(w, rpc, c.options.filter, s)
    ensures Genuine(w.dag, c.options.filter, s.from, s.batch) && Extends(w.dag, c, l.checkpoint, s.from, s.batch.blocks)
    ensures forall i | 0 <= i < |s.batch.blocks| :: s.batch.blocks[i].number == s.from + i
  {
    GenuineIff(w, rpc, c.options.filter, s.t0, s.from, s.to, ExpectedParent(l), s.batch);
    AcceptedShape(rpc, c.options.filter, s.t0, s.from, s.to, ExpectedParent(l), s.batch);
  }

  ghost predicate Inv(dag: Dag, c: Config, l: Ledger)
    requires ValidDag(dag)
  {
    Exact(dag, c, l) && Routing.Routed(c.decoder, l)
  }

  lemma CommitKeepsInv(w: World, rpc: Rpc, c: Config, l: Ledger, s: Step)
    requires ValidWorld(w) && Honest(w, rpc, c.options.filter) && ValidConfig(c) && Inv(w.dag, c, l)
    requires s.Commit? && Issued(rpc, c, l, s) && Coherent(w, rpc, c.options.filter, s)
    ensures Inv(w.dag, c, Apply(rpc, c, l, s))
  {
    var l' := Apply(rpc, c, l, s);
    CommitFollows(w, rpc, c, l, s);
    CommitKeepsExact(w.dag, c, l, s.from, s.batch, s.now, s.prepared, l');
    Routing.CommitKeepsRouted(c.decoder, l, s.batch.logs, s.now, PersistOf(s.batch, s.prepared),
                              c.options.reorgDepth + 1, l');
  }

  lemma RewindKeepsRouted(d: Decoder, l: Ledger, from: nat, ancestor: Hash)
    requires Routing.Routed(d, l)
    ensures Routing.Routed(d, RewindCanonical(l, from, ancestor))
  {
    DeletionKeepsRouted(d, l, from, RewindCanonical(l, from, ancestor));
  }

  lemma RewindKeepsInv(dag: Dag, c: Config, l: Ledger, n: nat)
    requires ValidDag(dag) && Inv(dag, c, l) && l.checkpoint.Some? && n in l.canonical
    ensures Inv(dag, c, RewindCanonical(l, n + 1, l.canonical[n].hash))
  {
    RewindKeepsExact(dag, c, l, n);
    RewindKeepsRouted(c.decoder, l, n + 1, l.canonical[n].hash);
  }

  lemma ResetKeepsInv(dag: Dag, rpc: Rpc, c: Config, l: Ledger, s: Step)
    requires ValidDag(dag) && ValidConfig(c) && Inv(dag, c, l) && s.Reset? && Issued(rpc, c, l, s)
    ensures Inv(dag, c, Apply(rpc, c, l, s))
  {
    ResetEmpties(dag, c, l);
    DeletionKeepsRouted(c.decoder, l, c.options.startBlock, Apply(rpc, c, l, s));
  }

  lemma DeletionKeepsRouted(d: Decoder, l: Ledger, from: nat, l': Ledger)
    requires Routing.Routed(d, l) && l' == DeleteFrom(l, from).(checkpoint := l'.checkpoint)
    ensures Routing.Routed(d, l')
  {
    Routing.DeleteKeepsRouted(d, l, EventsAt(l.events, from));
    var m := DeleteEvents(l, EventsAt(l.events, from));
    assert l'.events == m.events && l'.deliveries == m.deliveries;
  }

  lemma DeliverKeepsInv(dag: Dag, c: Config, l: Ledger, table: Outbox.Table)
    requires ValidDag(dag) && Inv(dag, c, l) && table.Keys == l.deliveries.Keys
    ensures Inv(dag, c, l.(deliveries := table))
  {
    var l' := l.(deliveries := table);
    forall e ensures Stored(l', e) <==> Stored(l, e) {}
    forall k ensures k in l'.deliveries <==> k in l.deliveries {}
  }

  lemma RewoundKeepsInv(dag: Dag, c: Config, l: Ledger, n: nat, l': Ledger)
    requires ValidDag(dag) && Inv(dag, c, l) && l.checkpoint.Some? && n in l.canonical
    requires l' == RewindCanonical(l, n + 1, l.canonical[n].hash)
    ensures Inv(dag, c, l')
  {
    RewindKeepsInv(dag, c, l, n);
  }

  lemma StepKeepsInv(w: World, rpc: Rpc, c: Config, l: Ledger, s: Step)
    requires ValidWorld(w) && Honest(w, rpc, c.options.filter) && ValidConfig(c) && Inv(w.dag, c, l)
    requires Issued(rpc, c, l, s) && Coherent(w, rpc, c.options.filter, s)
    ensures Inv(w.dag, c, Apply(rpc, c, l, s))
  {
    match s
    case Commit(_, _, _, _, _, _) => CommitKeepsInv(w, rpc, c, l, s);
    case Rewind(n) => RewoundKeepsInv(w.dag, c, l, n, Apply(rpc, c, l, s));
    case Reset => ResetKeepsInv(w.dag, rpc, c, l, s);
    case Deliver(table) => DeliverKeepsInv(w.dag, c, l, table);
  }

  lemma {:induction false} RunKeepsInv(w: World, rpc: Rpc, c: Config, l: Ledger, steps: seq<Step>)
    requires ValidWorld(w) && Honest(w, rpc, c.options.filter) && ValidConfig(c) && Inv(w.dag, c, l)
    requires Run(rpc, c, l, steps) && forall s | s in steps :: Coherent(w, rpc, c.options.filter, s)
    ensures Inv(w.dag, c, After(rpc, c, l, steps))
    decreases |steps|
  {
    if steps != [] {
      assert steps[0] in steps;
      StepKeepsInv(w, rpc, c, l, steps[0]);
      RunKeepsInv(w, rpc, c, Apply(rpc, c, l, steps[0]), steps[1..]);
    }
  }

  /**
   In every run of commits, rewinds and resets under arbitrary reorganisations between
   fetches, the stored events are exactly the configured logs of the checkpoint's ancestors
   from the start block on: no orphan and no gap; each has exactly its routed outbox rows.
   */
  lemma EveryRunIsExact(w: World, rpc: Rpc, c: Config, steps: seq<Step>)
    requires ValidWorld(w) && Honest(w, rpc, c.options.filter) && ValidConfig(c)
    requires Run(rpc, c, EMPTY, steps) && forall s | s in steps :: Coherent(w, rpc, c.options.filter, s)
    ensures Exact(w.dag, c, After(rpc, c, EMPTY, steps))
    ensures Routing.Routed(c.decoder, After(rpc, c, EMPTY, steps))
  {
    RunKeepsInv(w, rpc, c, EMPTY, steps);
  }

  /**
   Incremental scanning under any reorganisations refines a scan from scratch: any two runs
   over one world that end at the same checkpoint store the same events, whatever their
   providers, batch sizes, confirmations, reorg depths and detours.
   */
  lemma RunsWithOneCheckpointAgree(
      w: World, rpc: Rpc, c: Config, steps: seq<Step>, rpc': Rpc, c': Config, steps': seq<Step>)
    requires ValidWorld(w) && ValidConfig(c) && ValidConfig(c') && SameEvents(c, c')
    requires Honest(w, rpc, c.options.filter) && Honest(w, rpc', c'.options.filter)
    requires Run(rpc, c, EMPTY, steps) && forall s | s in steps :: Coherent(w, rpc, c.options.filter, s)
    requires Run(rpc', c', EMPTY, steps') && forall s | s in steps' :: Coherent(w, rpc', c'.options.filter, s)
    requires After(rpc, c, EMPTY, steps).checkpoint == After(rpc', c', EMPTY, steps').checkpoint
    ensures var l, m := After(rpc, c, EMPTY, steps), After(rpc', c', EMPTY, steps');
            && l.events.Keys == m.events.Keys
            && (forall id | id in l.events :: l.events[id].event == m.events[id].event)
            && l.deliveries.Keys == m.deliveries.Keys
  {
    EveryRunIsExact(w, rpc, c, steps);
    EveryRunIsExact(w, rpc', c', steps');
    var l, m := After(rpc, c, EMPTY, steps), After(rpc', c', EMPTY, steps');
    CheckpointDeterminesEvents(w.dag, c, l, c', m);
    forall k ensures k in l.deliveries <==> k in m.deliveries {}
  }
}
