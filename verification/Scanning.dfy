/** ScanOnce and the fork recovery of resumeBlock, against the store object. */
module Scanning {
  import opened Common
  import opened Chain
  import opened Records
  import opened Provider
  import opened Fetch
  import opened FetchTruth
  import opened FetchProgress
  import opened Ledger
  import L = Ledger
  import opened Exactness
  import Runs = ScannerRuns
  import Mixed = MixedRuns
  import Routing
  import opened Storage

  /** The start block is fixed and the history is keyed by height. */
  ghost predicate Aligned(c: Config, l: L.Ledger) {
    && (l.checkpoint.Some? ==> c.options.startBlock <= l.checkpoint.value.number <= MAX_INT64)
    && KeyedByNumber(l.canonical)
    && (forall n | n in l.canonical :: c.options.startBlock <= n <= MAX_INT64)
  }

  /** A retained block that the view still holds. */
  ghost predicate StillHeld(v: View, l: L.Ledger, n: nat) {
    n in l.canonical && v.Has(n, l.canonical[n].hash)
  }

  ghost predicate HighestHeld(v: View, l: L.Ledger, n: nat) {
    StillHeld(v, l, n) && forall m: nat | StillHeld(v, l, m) :: m <= n
  }

  /** Every retained row is within the reorg depth of the checkpoint. */
  ghost predicate Windowed(c: Config, l: L.Ledger) {
    l.checkpoint.Some? ==>
      forall n | n in l.canonical :: n <= l.checkpoint.value.number <= n + c.options.reorgDepth
  }

  /** A rewind to the highest retained common block, or a reset exactly when there is none. */
  ghost predicate Undone(c: Config, v: View, l: L.Ledger, l': L.Ledger) {
    if exists n: nat :: StillHeld(v, l, n) then
      exists n: nat :: HighestHeld(v, l, n) && l' == RewindCanonical(l, n + 1, l.canonical[n].hash)
    else ResetFrom(l, c.options.startBlock) == Ok(l')
  }

  /** What resuming does on one honest view that reaches the checkpoint: nothing when that view holds it. */
  ghost predicate Recovered(c: Config, v: View, l: L.Ledger, l': L.Ledger)
    requires l.checkpoint.Some?
  {
    var cp := l.checkpoint.value;
    if v.Has(cp.number, cp.hash) then l' == l else Undone(c, v, l, l')
  }

  ghost predicate NotAbove(l: L.Ledger, l': L.Ledger) {
    l'.checkpoint.Some? ==> l.checkpoint.Some? && l'.checkpoint.value.number <= l.checkpoint.value.number
  }

  /** The provider is behind what is stored. */
  predicate Ahead(l: L.Ledger, latest: nat) {
    l.checkpoint.Some? && l.checkpoint.value.number > latest
  }

  /** What resuming makes of the ledger: nothing without a checkpoint or with one the provider has yet to reach. */
  ghost predicate Resumed(
      rpc: Rpc, c: Config, v: View, latest: nat, t: nat, t1: nat, l: L.Ledger, l': L.Ledger)
  {
    if l.checkpoint.None? || Ahead(l, latest) then l' == l
    else Windowed(c, l) && Answers(rpc, v, t, t1) && AtHead(v, latest) ==> Recovered(c, v, l, l')
  }

  /** Resuming: a justified recovery that leads from one ledger to the other and never raises the checkpoint. */
  ghost predicate Begun(
      rpc: Rpc, c: Config, v: View, l: L.Ledger, l': L.Ledger, latest: nat, t: nat, t1: nat, recovery: seq<Runs.Step>)
  {
    match l.checkpoint
    case None => recovery == [] && l' == l
    case Some(_) =>
      && Traced(rpc, c, l, recovery, l') && (forall s | s in recovery :: !s.Commit?)
      && Resumed(rpc, c, v, latest, t, t1, l, l') && Justified(rpc, c, l, latest, t, t1, recovery)
      && (Windowed(c, l) ==> NotAbove(l, l'))
  }

  /** The steps lead from one ledger to the other. */
  ghost predicate Traced(rpc: Rpc, c: Config, l: L.Ledger, steps: seq<Runs.Step>, l': L.Ledger) {
    Runs.Run(rpc, c, l, steps) && Runs.After(rpc, c, l, steps) == l'
  }

  /** Every block hash reported by the calls at times lo, ..., hi - 1 is that of the view. */
  ghost predicate Answers(rpc: Rpc, v: View, lo: nat, hi: nat) {
    forall t: nat, n: nat | lo <= t < hi && rpc.hash(t, n).Some? :: v.Has(n, rpc.hash(t, n).value)
  }

  ghost predicate AtHead(v: View, latest: nat) {
    v.Up? && latest == |v.hashes| - 1
  }

  /** The first n blocks, as far as they are not above the head, were reported otherwise, and the next one again. */
  ghost predicate Searched(rpc: Rpc, blocks: seq<CanonicalBlock>, latest: nat, t: nat, t1: nat, n: nat)
    requires n <= |blocks|
  {
    && (forall j | 0 <= j < n && blocks[j].number <= latest :: Differs(rpc, blocks[j], t, t1))
    && (n < |blocks| ==> blocks[n].number <= latest && Confirms(rpc, blocks[n], t, t1))
  }

  /** `found` is the first of the blocks that the view holds. */
  ghost predicate FirstHeld(v: View, blocks: seq<CanonicalBlock>, found: Option<CanonicalBlock>) {
    match found
    case None => forall b | b in blocks :: !v.Has(b.number, b.hash)
    case Some(a) =>
      exists i :: 0 <= i < |blocks| && blocks[i] == a && v.Has(a.number, a.hash)
                  && forall j | 0 <= j < i :: !v.Has(blocks[j].number, blocks[j].hash)
  }

  // ---------------------------------------------- what a scan may do at all

  /** The provider was asked for this block within the span of calls, and reported another one. */
  ghost predicate Differs(rpc: Rpc, b: CanonicalBlock, t: nat, t1: nat) {
    exists u: nat :: t <= u < t1 && HashAt(rpc, u, b.number).Some? && HashAt(rpc, u, b.number).value != b.hash
  }

  ghost predicate Confirms(rpc: Rpc, b: CanonicalBlock, t: nat, t1: nat) {
    exists u: nat :: t <= u < t1 && HashAt(rpc, u, b.number) == Some(b.hash)
  }

  /**
   Recovery, whatever the provider: nothing, unless another block was reported at the checkpoint. Then a rewind
   to a retained block that was reported again, all newer ones having been reported otherwise; or a reset, all of
   them having been reported otherwise.
   */
  ghost predicate Justified(
      rpc: Rpc, c: Config, l: L.Ledger, latest: nat, t: nat, t1: nat, recovery: seq<Runs.Step>)
  {
    recovery == [] || (
      && |recovery| == 1 && l.checkpoint.Some? && l.checkpoint.value.number <= latest
      && HashAt(rpc, t + 1, l.checkpoint.value.number).Some?
      && HashAt(rpc, t + 1, l.checkpoint.value.number).value != l.checkpoint.value.hash
      && StepJustified(rpc, c, l, latest, t + 2, t1, recovery[0]))
  }

  ghost predicate StepJustified(
      rpc: Rpc, c: Config, l: L.Ledger, latest: nat, t: nat, t1: nat, s: Runs.Step)
  {
    var listed := Newest(l.canonical, c.options.reorgDepth + 1);
    match s
    case Rewind(n) =>
      && n in l.canonical && n <= latest && Confirms(rpc, l.canonical[n], t, t1)
      && forall b | b in listed && n < b.number <= latest :: Differs(rpc, b, t, t1)
    case Reset => forall b | b in listed && b.number <= latest :: Differs(rpc, b, t, t1)
    case _ => false
  }

  /**
   The steps of one scan: a justified recovery, then commits of at most a batch each that stay at or below the
   confirmed head; the checkpoint ends at or below the confirmed head or where it was before.
   */
  ghost predicate Confined(
      rpc: Rpc, c: Config, l: L.Ledger, l': L.Ledger, latest: nat, t: nat, t1: nat, steps: seq<Runs.Step>)
  {
    && (exists n: nat :: n <= |steps| && Justified(rpc, c, l, latest, t, t1, steps[..n])
                         && forall s | s in steps[n..] :: s.Commit?)
    && (forall s | s in steps && s.Commit? ::
          s.from <= s.to && s.to + c.options.confirmations <= latest && s.to - s.from + 1 <= c.options.batchSize)
    && (Windowed(c, l) && l'.checkpoint.Some? ==>
          || l'.checkpoint.value.number + c.options.confirmations <= latest
          || (l.checkpoint.Some? && l'.checkpoint.value.number <= l.checkpoint.value.number))
  }

  // ------------------------------------------------------ why a scan may fail

  /** The batch does not decode or route, or the store refuses it. */
  predicate Unstorable(c: Config, l: L.Ledger, b: Batch, now: int) {
    || Prepare(c.decoder, b.logs, now).Err?
    || L.SaveBatch(l, PersistOf(b, Prepare(c.decoder, b.logs, now).value), c.options.reorgDepth + 1).Err?
  }

  /** The fetch of this range at this time is not accepted, or its batch cannot be stored. */
  ghost predicate Blocked(rpc: Rpc, c: Config, l: L.Ledger, from: nat, to: nat, t: nat, clock: nat -> int) {
    from <= to && (
      || !Accepts(rpc, c.options.filter, t, from, to, Runs.ExpectedParent(l))
      || exists b :: IsBatch(rpc, t, from, to, b) && Unstorable(c, l, b, clock(Finish(rpc, t, from, to))))
  }

  /** The batch after the checkpoint was blocked when it was due. */
  ghost predicate ScanStops(
      rpc: Rpc, c: Config, l: L.Ledger, confirmedHead: nat, t: nat, t1: nat, clock: nat -> int)
  {
    var from := Runs.NextBlock(c, l);
    && from <= confirmedHead <= MAX_UINT64 && 1 <= c.options.batchSize <= MAX_UINT64
    && var to := BatchEnd(from, c.options.batchSize, confirmedHead);
    exists u: nat :: t <= u <= t1 && Blocked(rpc, c, l, from, to, u, clock)
  }

  /** The retained history is too long to load, or a block of it could not be asked for. */
  ghost predicate HistoryUnread(rpc: Rpc, c: Config, l: L.Ledger, latest: nat, t: nat, t1: nat) {
    || c.options.reorgDepth + 1 > 100000
    || exists u: nat, n: nat :: t <= u < t1 && n in l.canonical && n <= latest && HashAt(rpc, u, n).None?
  }

  /** The checkpoint's block could not be read, or it changed and the history could not be searched. */
  ghost predicate ResumeFails(rpc: Rpc, c: Config, l: L.Ledger, latest: nat, t: nat, t1: nat) {
    && l.checkpoint.Some? && l.checkpoint.value.number <= latest
    && var n := l.checkpoint.value.number;
    || ParentAt(rpc, t, n).None?
    || HashAt(rpc, t + 1, n).None?
    || (HashAt(rpc, t + 1, n).value != l.checkpoint.value.hash && HistoryUnread(rpc, c, l, latest, t + 2, t1))
  }

  /** Resuming failed, or a batch was blocked: nothing else stops a scan. */
  ghost predicate ScanFails(
      rpc: Rpc, c: Config, l: L.Ledger, l': L.Ledger, latest: nat, t: nat, t1: nat, clock: nat -> int)
  {
    || ResumeFails(rpc, c, l, latest, t, t1)
    || (latest >= c.options.confirmations && ScanStops(rpc, c, l', latest - c.options.confirmations, t, t1, clock))
  }

  lemma AllRowsAreRouted(c: Config, l: L.Ledger, b: Batch, now: int, p: Prepared, l': L.Ledger)
    requires Prepare(c.decoder, b.logs, now) == Ok(p)
    requires L.SaveBatch(l, PersistOf(b, p), c.options.reorgDepth + 1) == Ok(l')
    ensures forall k | k in l'.deliveries && k !in l.deliveries ::
              k.event in l'.events
              && Routing.RowAsRouted(c.decoder, l'.events[k.event].event, now, k, l'.deliveries[k])
  {
    forall k | k in l'.deliveries && k !in l.deliveries
      ensures k.event in l'.events
      ensures Routing.RowAsRouted(c.decoder, l'.events[k.event].event, now, k, l'.deliveries[k])
    {
      Routing.CommitAddsRowsAsRouted(c.decoder, l, b.logs, now, PersistOf(b, p), c.options.reorgDepth + 1, l', k);
    }
  }

  lemma {:induction false} PrepareFailsLater(d: Decoder, logs: seq<RawLog>, now: int, n: nat)
    requires n <= |logs| && Prepare(d, logs[..n], now).Err?
    ensures Prepare(d, logs, now).Err?
    decreases |logs|
  {
    if n == |logs| {
      assert logs[..n] == logs;
    } else {
      var m := |logs| - 1;
      assert logs[..m][..n] == logs[..n];
      PrepareFailsLater(d, logs[..m], now, n);
    }
  }

  class Scanner {
    const rpc: Rpc
    const config: Config
    const store: Store

    constructor (rpc: Rpc, config: Config, store: Store)
      ensures this.rpc == rpc && this.config == config && this.store == store
    {
      this.rpc, this.config, this.store := rpc, config, store;
    }

    /** Decode, route and persist one batch. */
    method Process(b: Batch, now: int) returns (r: Result<Prepared, Error>)
      modifies store`checkpoint, store`canonical, store`events, store`deliveries
      ensures r.Ok? <==> !Unstorable(config, old(store.State()), b, now)
      ensures r.Ok? ==>
                && Prepare(config.decoder, b.logs, now) == Ok(r.value)
                && L.SaveBatch(old(store.State()), PersistOf(b, r.value), config.options.reorgDepth + 1)
                   == Ok(store.State())
      ensures r.Ok? ==> forall k | k in store.deliveries && k !in old(store.deliveries) ::
                k.event in store.events
                && Routing.RowAsRouted(config.decoder, store.events[k.event].event, now, k, store.deliveries[k])
      ensures r.Err? ==> store.State() == old(store.State())
    {
      var rows: seq<EventRow> := [];
      var items: seq<NewDelivery> := [];
      for i := 0 to |b.logs|
        invariant Prepare(config.decoder, b.logs[..i], now) == Ok(Prepared(rows, items))
        invariant store.State() == old(store.State())
      {
        assert b.logs[..i + 1][..i] == b.logs[..i];
        var decoded := config.decoder.decode(b.logs[i]);
        if decoded.Undecodable? {
          PrepareFailsLater(config.decoder, b.logs, now, i + 1);
          return Err(DecodeFailure);
        }
        if decoded.DecodedAs? {
          var destinations := config.decoder.route(decoded.event);
          if destinations.None? {
            PrepareFailsLater(config.decoder, b.logs, now, i + 1);
            return Err(NoRoute);
          }
          rows := rows + [EventRow(decoded.event, now)];
          items := items + NewDeliveries(decoded.event, destinations.value, now);
        }
      }
      assert b.logs[..|b.logs|] == b.logs;
      var saved := store.SaveBatch(Persist(rows, items, b.blocks, b.checkpoint), config.options.reorgDepth + 1);
      if saved.Err? {
        return Err(saved.error);
      }
      AllRowsAreRouted(config, old(store.State()), b, now, Prepared(rows, items), store.State());
      r := Ok(Prepared(rows, items));
    }

    /** Look for the newest retained block that the provider still reports. */
    method FindCommon(blocks: seq<CanonicalBlock>, latest: nat, t: nat, ghost v: View)
      returns (r: Result<Option<CanonicalBlock>, Error>, t1: nat)
      ensures t1 >= t
      ensures r.Ok? && r.value.Some? ==> r.value.value in blocks
      ensures r.Err? ==> exists u: nat, i :: t <= u < t1 && 0 <= i < |blocks| && blocks[i].number <= latest
                                             && HashAt(rpc, u, blocks[i].number).None?
      ensures r.Ok? && Answers(rpc, v, t, t1) && AtHead(v, latest) ==>
                FirstHeld(v, blocks, r.value)
      ensures r.Ok? ==> exists n: nat :: n <= |blocks| && Searched(rpc, blocks, latest, t, t1, n)
                                         && r.value == if n < |blocks| then Some(blocks[n]) else None
    {
      t1 := t;
      for i := 0 to |blocks|
        invariant t1 >= t && forall j | 0 <= j < i && blocks[j].number <= latest :: Differs(rpc, blocks[j], t, t1)
        invariant Answers(rpc, v, t, t1) && AtHead(v, latest) ==>
                    forall j | 0 <= j < i :: !v.Has(blocks[j].number, blocks[j].hash)
      {
        if blocks[i].number <= latest {
          var canonical := BlockHashByNumber(rpc, t1, blocks[i].number);
          ghost var asked := t1;
          t1 := t1 + 1;
          if canonical.None? {
            return Err(RpcFailure), t1;
          }
          assert t <= asked < t1 && HashAt(rpc, asked, blocks[i].number) == canonical;
          if canonical.value == blocks[i].hash {
            return Ok(Some(blocks[i])), t1;
          }
        }
      }
      r := Ok(None);
    }

    /** Undo a reorganisation: rewind to the newest retained block still reported, or start over. */
    method Recover(latest: nat, t: nat, ghost v: View)
      returns (r: Result<nat, Error>, t1: nat, ghost steps: seq<Runs.Step>)
      requires ValidOptions(config.options) && Aligned(config, store.State()) && store.checkpoint.Some?
      modifies store`checkpoint, store`canonical, store`events, store`deliveries
      ensures t1 >= t && Aligned(config, store.State())
      ensures Traced(rpc, config, old(store.State()), steps, store.State()) && forall s | s in steps :: !s.Commit?
      ensures r.Ok? ==> r.value == Runs.NextBlock(config, store.State())
      ensures r.Ok? && Answers(rpc, v, t, t1) && AtHead(v, latest)
              && Windowed(config, old(store.State())) ==>
                Undone(config, v, old(store.State()), store.State())
      ensures config.options.reorgDepth + 1 > 100000 ==> r == Err(HistoryLimit)
      ensures if r.Ok? then |steps| == 1 && StepJustified(rpc, config, old(store.State()), latest, t, t1, steps[0])
              else steps == []
      ensures Windowed(config, old(store.State())) ==> NotAbove(old(store.State()), store.State())
      ensures r.Err? ==> store.State() == old(store.State())
                         && HistoryUnread(rpc, config, old(store.State()), latest, t, t1)
    {
      steps, t1 := [], t;
      var history := CanonicalBlocks(L.Ledger(store.checkpoint, store.canonical, store.events, store.deliveries),
                                     config.options.reorgDepth + 1);
      if history.Err? {
        return Err(history.error), t1, steps;
      }
      var blocks := history.value;
      NewestAreRows(store.canonical, config.options.reorgDepth + 1);
      var found;
      found, t1 := FindCommon(blocks, latest, t, v);
      if found.Err? {
        assert HistoryUnread(rpc, config, store.State(), latest, t, t1) by {
          var u: nat, i :| t <= u < t1 && 0 <= i < |blocks| && blocks[i].number <= latest
                           && HashAt(rpc, u, blocks[i].number).None?;
          assert blocks[i].number in store.canonical;
        }
        return Err(found.error), t1, steps;
      }
      FoundIsHighest(config, v, store.State(), blocks, found.value);
      SearchJustifies(rpc, config, store.State(), blocks, latest, t, t1, found.value);
      var next;
      next, steps := StepBack(found.value);
      r := Ok(next);
    }

    /** Rewind to the found block, or reset to the start block when there is none. */
    method StepBack(found: Option<CanonicalBlock>) returns (next: nat, ghost steps: seq<Runs.Step>)
      requires ValidOptions(config.options) && Aligned(config, store.State()) && store.checkpoint.Some?
      requires found.Some? ==>
                 found.value.number in store.canonical && store.canonical[found.value.number] == found.value
      modifies store`checkpoint, store`canonical, store`events, store`deliveries
      ensures Aligned(config, store.State()) && next == Runs.NextBlock(config, store.State())
      ensures Traced(rpc, config, old(store.State()), steps, store.State()) && forall s | s in steps :: !s.Commit?
      ensures forall v | FoundMeans(v, old(store.State()), found) ::
                Undone(config, v, old(store.State()), store.State())
      ensures steps == [if found.Some? then Runs.Rewind(found.value.number) else Runs.Reset]
      ensures store.checkpoint == if found.Some? then Some(Checkpoint(found.value.number, found.value.hash)) else None
    {
      if found.Some? {
        steps := [Runs.Rewind(found.value.number)];
        RewindFacts(rpc, config, store.State(), found.value);
        store.RewindCanonical(found.value.number + 1, found.value.hash);
        return found.value.number + 1, steps;
      }
      steps := [Runs.Reset];
      ResetFacts(rpc, config, store.State());
      var reset := store.ResetFrom(config.options.startBlock);
      next := config.options.startBlock;
    }

    /** Where to go on from, after undoing a reorganisation of what is stored. */
    method ResumeBlock(latest: nat, t: nat, ghost v: View)
      returns (r: Result<nat, Error>, t1: nat, ghost steps: seq<Runs.Step>)
      requires ValidOptions(config.options) && latest < MAX_UINT64 && Aligned(config, store.State())
      modifies store`checkpoint, store`canonical, store`events, store`deliveries
      ensures t1 >= t && Aligned(config, store.State())
      ensures r.Ok? && !Ahead(old(store.State()), latest) ==> r.value == Runs.NextBlock(config, store.State())
      ensures Ahead(old(store.State()), latest) ==> r == Ok(latest + 1)
      ensures r.Ok? ==> Begun(rpc, config, v, old(store.State()), store.State(), latest, t, t1, steps)
      ensures r.Err? ==> steps == []
      ensures r.Err? ==>
                store.State() == old(store.State()) && ResumeFails(rpc, config, old(store.State()), latest, t, t1)
    {
      steps, t1 := [], t;
      if store.checkpoint.None? {
        return Ok(config.options.startBlock), t1, steps;
      }
      var cp := store.checkpoint.value;
      if cp.number > latest {
        return Ok(latest + 1), t1, steps;
      }
      var header := HeaderByNumber(rpc, t, cp.number);
      t1 := t + 1;
      if header.None? {
        return Err(RpcFailure), t1, steps;
      }
      var hash := BlockHashByNumber(rpc, t + 1, cp.number);
      t1 := t + 2;
      if hash.None? {
        return Err(RpcFailure), t1, steps;
      }
      if hash.value == cp.hash {
        return Ok(cp.number + 1), t1, steps;
      }
      r, t1, steps := Recover(latest, t + 2, v);
    }

    /** Fetch, decode, route and commit one batch. */
    method ScanBatch(from: nat, to: nat, expected: Option<Hash>, t: nat, clock: nat -> int)
      returns (r: Result<Hash, Error>, t1: nat, ghost steps: seq<Runs.Step>)
      requires Aligned(config, store.State()) && from <= to < MAX_UINT64
      requires from == Runs.NextBlock(config, store.State()) && expected == Runs.ExpectedParent(store.State())
      modifies store`checkpoint, store`canonical, store`events, store`deliveries
      ensures t1 >= t && Aligned(config, store.State())
      ensures Committed(rpc, config, old(store.State()), steps, store.State(), t, t1)
      ensures forall s | s in steps :: s.Commit? && s.from == from && s.to == to
      ensures if r.Ok? then store.checkpoint == Some(Checkpoint(to, r.value)) && |steps| == 1
              else steps == [] && Blocked(rpc, config, old(store.State()), from, to, t, clock)
    {
      steps := [];
      var batch;
      batch, t1 := FetchVerifiedBatch(rpc, config.options.filter, t, from, to, expected);
      if batch.Err? {
        return Err(batch.error), t1, steps;
      }
      ghost var l := store.State();
      var saved := Process(batch.value, clock(t1));
      if saved.Err? {
        return Err(saved.error), t1, steps;
      }
      ghost var s := Runs.Commit(from, to, t, batch.value, saved.value, clock(t1));
      CommitFacts(rpc, config, l, s);
      OneStep(rpc, config, l, s);
      steps := [s];
      r := Ok(batch.value.checkpoint.hash);
    }

    /** Catch the checkpoint up with the confirmed head. */
    method ScanOnce(t: nat, clock: nat -> int, ghost w: World)
      returns (r: Result<(), Error>, t1: nat, ghost steps: seq<Runs.Step>)
      requires ValidOptions(config.options) && Aligned(config, store.State())
      requires forall u | rpc.latest(u).Some? :: rpc.latest(u).value < MAX_UINT64
      modifies store`checkpoint, store`canonical, store`events, store`deliveries
      ensures t1 > t && Aligned(config, store.State())
      ensures Trail(rpc, config, old(store.State()), steps, store.State(), t, t1)
      ensures if rpc.chainMatches(t) && rpc.latest(t + 1).Some?
                 && rpc.latest(t + 1).value >= config.options.confirmations
              then Confined(rpc, config, old(store.State()), store.State(), rpc.latest(t + 1).value, t + 2, t1, steps)
              else steps == []
      ensures r.Ok? && Calm(w, rpc, config, old(store.State()), t, t1) ==>
                CaughtUp(w.dag, config, w.views(t), old(store.State()), store.State())
      ensures r.Err? ==>
                || !rpc.chainMatches(t) || rpc.latest(t + 1).None?
                || ScanFails(rpc, config, old(store.State()), store.State(), rpc.latest(t + 1).value, t + 2, t1, clock)
      ensures r.Err? && Served(w, rpc, config, old(store.State()), t, t1) ==>
                rpc.latest(t + 1).Some? && Refused(rpc, config, store.State(), rpc.latest(t + 1).value, t, t1, clock)
    {
      ServedHead(w, rpc, config, store.State(), t);
      steps, t1 := [], t + 1;
      if !rpc.chainMatches(t) {
        return Err(RpcFailure), t1, steps;
      }
      var latest := rpc.latest(t + 1);
      t1 := t + 2;
      if latest.None? {
        return Err(RpcFailure), t1, steps;
      }
      if latest.value < config.options.confirmations {
        LatestIsHead(w, rpc, config, store.State(), t, latest.value);
        return Ok(()), t1, steps;
      }
      r, t1, steps := ScanConfirmed(latest.value, t, clock, w);
    }

    /** Resume, and scan up to the confirmed head; the head was read by the call at t + 1. */
    method ScanConfirmed(latest: nat, t: nat, clock: nat -> int, ghost w: World)
      returns (r: Result<(), Error>, t1: nat, ghost steps: seq<Runs.Step>)
      requires ValidOptions(config.options) && Aligned(config, store.State())
      requires rpc.latest(t + 1) == Some(latest) && config.options.confirmations <= latest < MAX_UINT64
      modifies store`checkpoint, store`canonical, store`events, store`deliveries
      ensures t1 > t && Aligned(config, store.State())
      ensures r.Ok? ==> Scanned(w, rpc, config, old(store.State()), store.State(), latest, t, t1, clock, steps, true)
      ensures r.Err? ==> Scanned(w, rpc, config, old(store.State()), store.State(), latest, t, t1, clock, steps, false)
    {
      var confirmedHead := latest - config.options.confirmations;
      var next;
      next, t1, steps := ResumeBlock(latest, t + 2, w.views(t));
      if next.Err? {
        ScanFailsToResume(w, rpc, config, latest, t, t1, store.State(), clock);
        return Err(next.error), t1, steps;
      }
      if next.value > confirmedHead {
        ScanRests(w, rpc, config, latest, t, t1, old(store.State()), steps, store.State(), clock);
        return Ok(()), t1, steps;
      }
      ghost var commits;
      r, t1, commits := ScanResumed(next.value, latest, t, t1, clock, w);
      steps := steps + commits;
    }

    /** The scan after resuming, whatever ledger and recovery it resumed from. */
    method ScanResumed(next: nat, latest: nat, t: nat, resumed: nat, clock: nat -> int, ghost w: World)
      returns (r: Result<(), Error>, t1: nat, ghost commits: seq<Runs.Step>)
      requires ValidOptions(config.options) && Aligned(config, store.State())
      requires rpc.latest(t + 1) == Some(latest) && config.options.confirmations <= latest < MAX_UINT64
      requires t + 2 <= resumed
      requires next == Runs.NextBlock(config, store.State()) <= latest - config.options.confirmations
      modifies store`checkpoint, store`canonical, store`events, store`deliveries
      ensures t1 > t && Aligned(config, store.State())
      ensures Concludes(w, rpc, config, old(store.State()), commits, store.State(), latest, t, resumed, t1, clock,
                        r.Ok?)
    {
      ghost var m := store.State();
      r, t1, commits := ScanUpTo(next, latest - config.options.confirmations, resumed, clock);
      AnyScanConcludes(w, rpc, config, latest, t, resumed, t1, m, commits, store.State(), clock, r.Ok?);
    }

    /** The batches from the resume position to the confirmed head. */
    method ScanUpTo(next: nat, confirmedHead: nat, t: nat, clock: nat -> int)
      returns (r: Result<(), Error>, t1: nat, ghost commits: seq<Runs.Step>)
      requires ValidOptions(config.options) && Aligned(config, store.State())
      requires next <= confirmedHead < MAX_UINT64 && next == Runs.NextBlock(config, store.State())
      modifies store`checkpoint, store`canonical, store`events, store`deliveries
      ensures t1 >= t && Aligned(config, store.State())
      ensures Advanced(rpc, config, old(store.State()), commits, store.State(), confirmedHead, t, t1, clock, r.Ok?)
    {
      commits, t1 := [], t;
      var expected := None;
      if next > config.options.startBlock {
        if store.checkpoint.None? {
          return Err(CheckpointMissing), t1, commits;
        }
        expected := Some(store.checkpoint.value.hash);
      }
      var from := next;
      while from <= confirmedHead
        invariant from <= confirmedHead && t1 >= t && Aligned(config, store.State())
        invariant from == Runs.NextBlock(config, store.State()) && expected == Runs.ExpectedParent(store.State())
        invariant Committed(rpc, config, old(store.State()), commits, store.State(), t, t1)
        invariant Sized(config, commits, confirmedHead)
        decreases confirmedHead - from
      {
        var to := BatchEnd(from, config.options.batchSize, confirmedHead);
        BatchEndDoesNotWrap(from, config.options.batchSize, confirmedHead);
        ghost var l, before := store.State(), t1;
        ghost var one;
        var batch;
        batch, t1, one := ScanBatch(from, to, expected, t1, clock);
        Extend(rpc, config, old(store.State()), commits, l, one, store.State(), t, before, t1);
        commits := commits + one;
        if batch.Err? {
          assert ScanStops(rpc, config, store.State(), confirmedHead, t, t1, clock) by {
            assert t <= before <= t1 && Blocked(rpc, config, store.State(), from, to, before, clock);
          }
          return Err(batch.error), t1, commits;
        }
        expected := Some(batch.value);
        if to == confirmedHead {
          break;
        }
        from := to + 1;
      }
      r := Ok(());
    }

    /** The bounded, checkpoint-free fetch of the backfill jobs. */
    method FetchRange(from: nat, to: nat, t: nat) returns (r: Result<seq<RawLog>, Error>)
      requires from <= MAX_UINT64 && to < MAX_UINT64
      ensures r.Ok? <==> && from <= to && to - from + 1 <= config.options.batchSize && rpc.chainMatches(t)
                         && Accepts(rpc, config.options.filter, t + 1, from, to, None)
      ensures r.Ok? ==> IsDeduplicated(rpc.logs(t + 3, from, to).value, r.value)
    {
      if from > to || AddU64(SubU64(to, from), 1) > config.options.batchSize {
        return Err(RangeTooLarge);
      }
      if !rpc.chainMatches(t) {
        return Err(RpcFailure);
      }
      var batch, _ := FetchVerifiedBatch(rpc, config.options.filter, t + 1, from, to, None);
      if batch.Err? {
        return Err(batch.error);
      }
      r := Ok(batch.value.logs);
    }
  }

  lemma JustifiedLater(
      rpc: Rpc, c: Config, l: L.Ledger, latest: nat, t: nat, t1: nat, t2: nat, recovery: seq<Runs.Step>)
    requires t1 <= t2 && Justified(rpc, c, l, latest, t, t1, recovery)
    ensures Justified(rpc, c, l, latest, t, t2, recovery)
  {
    if recovery != [] {
      var u := t + 2;
      forall b | Differs(rpc, b, u, t1) ensures Differs(rpc, b, u, t2) {}
      forall b | Confirms(rpc, b, u, t1) ensures Confirms(rpc, b, u, t2) {}
    }
  }

  lemma RecoveryIsConfined(
      rpc: Rpc, c: Config, l: L.Ledger, l': L.Ledger, latest: nat, t: nat, t1: nat, recovery: seq<Runs.Step>)
    requires Justified(rpc, c, l, latest, t, t1, recovery) && forall s | s in recovery :: !s.Commit?
    requires Windowed(c, l) ==> NotAbove(l, l')
    ensures Confined(rpc, c, l, l', latest, t, t1, recovery)
  {
    assert recovery[..|recovery|] == recovery && recovery[|recovery|..] == [];
  }

  lemma ScanIsConfined(
      rpc: Rpc, c: Config, l: L.Ledger, l': L.Ledger, latest: nat, t: nat, t1: nat, t2: nat,
      recovery: seq<Runs.Step>, commits: seq<Runs.Step>)
    requires t1 <= t2 && Justified(rpc, c, l, latest, t, t1, recovery) && forall s | s in recovery :: !s.Commit?
    requires c.options.confirmations <= latest && Sized(c, commits, latest - c.options.confirmations)
    requires forall s | s in commits :: s.Commit?
    requires l'.checkpoint.Some? ==> l'.checkpoint.value.number <= latest - c.options.confirmations
    ensures Confined(rpc, c, l, l', latest, t, t2, recovery + commits)
  {
    JustifiedLater(rpc, c, l, latest, t, t1, t2, recovery);
    var steps := recovery + commits;
    assert steps[..|recovery|] == recovery && steps[|recovery|..] == commits;
  }

  lemma StopsInside(
      rpc: Rpc, c: Config, l: L.Ledger, confirmedHead: nat, t: nat, lo: nat, hi: nat, clock: nat -> int)
    requires t <= lo
    ensures ScanStops(rpc, c, l, confirmedHead, lo, hi, clock) ==> ScanStops(rpc, c, l, confirmedHead, t, hi, clock)
  {
  }

  /** Every fetch of the trace was made within the given span of calls. */
  ghost predicate Within(rpc: Rpc, steps: seq<Runs.Step>, lo: nat, hi: nat) {
    forall s | s in steps && s.Commit? && s.from <= s.to ::
      lo <= s.t0 && Finish(rpc, s.t0, s.from, s.to) <= hi
  }

  // ------------------------------------------------ one scan of one view

  /** The call ran against an honest provider whose view stood still, over a store that earlier runs left. */
  ghost predicate Calm(w: World, rpc: Rpc, c: Config, l: L.Ledger, t: nat, t1: nat) {
    && ValidWorld(w) && Honest(w, rpc, c.options.filter) && Stable(w, t, t1)
    && ValidConfig(c) && Runs.Inv(w.dag, c, l)
  }

  /** The checkpoint, if there is one, is a block of the view. */
  ghost predicate OnTheView(v: View, l: L.Ledger) {
    l.checkpoint.Some? ==> v.Has(l.checkpoint.value.number, l.checkpoint.value.hash)
  }

  /**
   The store is that of a scan of this view from scratch: its events are exactly the configured logs
   up to a checkpoint on the view, and that checkpoint has reached the confirmed head.
   */
  ghost predicate CaughtUp(dag: Dag, c: Config, v: View, l: L.Ledger, l': L.Ledger)
    requires ValidDag(dag)
  {
    && Runs.Inv(dag, c, l') && v.Up?
    && var head := |v.hashes| - 1;
    (head >= c.options.confirmations && !Ahead(l, head) ==>
       && OnTheView(v, l')
       && (head - c.options.confirmations >= c.options.startBlock ==>
             l'.checkpoint.Some? && l'.checkpoint.value.number >= head - c.options.confirmations))
  }

  lemma LatestIsHead(w: World, rpc: Rpc, c: Config, l: L.Ledger, t: nat, latest: nat)
    requires rpc.latest(t + 1) == Some(latest)
    ensures forall t1 | t1 >= t + 2 && Calm(w, rpc, c, l, t, t1) :: AtHead(w.views(t), latest)
  {
    forall t1 | t1 >= t + 2 && Calm(w, rpc, c, l, t, t1) ensures AtHead(w.views(t), latest) {
      assert w.views(t + 1) == w.views(t);
    }
  }

  lemma CalmAnswers(w: World, rpc: Rpc, c: Config, l: L.Ledger, t: nat, lo: nat, hi: nat, t1: nat)
    requires Calm(w, rpc, c, l, t, t1) && t <= lo && hi <= t1
    ensures Answers(rpc, w.views(t), lo, hi)
  {
    forall u: nat, n: nat | lo <= u < hi && rpc.hash(u, n).Some? ensures w.views(t).Has(n, rpc.hash(u, n).value) {
      assert w.views(u) == w.views(t);
    }
  }

  lemma ExactIsWindowed(dag: Dag, c: Config, l: L.Ledger)
    requires ValidDag(dag) && Exact(dag, c, l)
    ensures Windowed(c, l)
  {
  }

  lemma RecoveredIsOnView(c: Config, v: View, l: L.Ledger, l': L.Ledger)
    requires l.checkpoint.Some? && Recovered(c, v, l, l')
    ensures OnTheView(v, l')
  {
  }

  lemma CommitIsOnView(w: World, rpc: Rpc, c: Config, l: L.Ledger, s: Runs.Step, t: nat, t1: nat)
    requires ValidWorld(w) && Honest(w, rpc, c.options.filter) && Stable(w, t, t1)
    requires s.Commit? && Runs.Issued(rpc, c, l, s) && t <= s.t0 && Finish(rpc, s.t0, s.from, s.to) <= t1
    ensures Runs.Coherent(w, rpc, c.options.filter, s) && OnTheView(w.views(t), Runs.Apply(rpc, c, l, s))
  {
    assert w.views(s.t0) == w.views(t);
    StandingViewAgrees(w, rpc, c.options.filter, s.t0, s.from, s.to);
    StableFetchIsGenuine(w, rpc, c.options.filter, s.t0, s.from, s.to, Runs.ExpectedParent(l), s.batch);
    AcceptedShape(rpc, c.options.filter, s.t0, s.from, s.to, Runs.ExpectedParent(l), s.batch);
    var i := s.to - s.from;
    assert w.views(s.t0).Has(s.from + i, s.batch.blocks[i].hash);
  }

  /** Commits made within the calm span keep the checkpoint on the view. */
  lemma {:induction false} CommitsStayOnView(
      w: World, rpc: Rpc, c: Config, l: L.Ledger, steps: seq<Runs.Step>, l': L.Ledger, t: nat, t1: nat)
    requires Calm(w, rpc, c, l, t, t1) && OnTheView(w.views(t), l)
    requires Traced(rpc, c, l, steps, l') && Within(rpc, steps, t, t1) && forall s | s in steps :: s.Commit?
    ensures Runs.Inv(w.dag, c, l') && OnTheView(w.views(t), l')
    decreases |steps|
  {
    if steps != [] {
      assert steps[0] in steps;
      CommitIsOnView(w, rpc, c, l, steps[0], t, t1);
      Runs.StepKeepsInv(w, rpc, c, l, steps[0]);
      CommitsStayOnView(w, rpc, c, Runs.Apply(rpc, c, l, steps[0]), steps[1..], l', t, t1);
    }
  }

  lemma RecoveryStaysExact(w: World, rpc: Rpc, c: Config, l: L.Ledger, steps: seq<Runs.Step>, l': L.Ledger)
    requires ValidWorld(w) && Honest(w, rpc, c.options.filter) && ValidConfig(c) && Runs.Inv(w.dag, c, l)
    requires Traced(rpc, c, l, steps, l') && forall s | s in steps :: !s.Commit?
    ensures Runs.Inv(w.dag, c, l')
  {
    Runs.RunKeepsInv(w, rpc, c, l, steps);
  }

  /** On a calm view that reaches the old checkpoint, every scan, failed or not, stays exact and on the view. */
  lemma ScanStaysOnView(
      w: World, rpc: Rpc, c: Config, latest: nat, t: nat, resumed: nat, t1: nat,
      l: L.Ledger, recovery: seq<Runs.Step>, m: L.Ledger, commits: seq<Runs.Step>, l': L.Ledger)
    requires t + 2 <= resumed <= t1 && AtHead(w.views(t), latest) && Calm(w, rpc, c, l, t, t1) && !Ahead(l, latest)
    requires Traced(rpc, c, l, recovery, m) && forall s | s in recovery :: !s.Commit?
    requires Resumed(rpc, c, w.views(t), latest, t + 2, resumed, l, m)
    requires Committed(rpc, c, m, commits, l', t, t1)
    ensures Runs.Inv(w.dag, c, l') && OnTheView(w.views(t), l')
  {
    RecoveryStaysExact(w, rpc, c, l, recovery, m);
    if l.checkpoint.Some? {
      CalmAnswers(w, rpc, c, l, t, t + 2, resumed, t1);
      ExactIsWindowed(w.dag, c, l);
      RecoveredIsOnView(c, w.views(t), l, m);
    }
    CommitsStayOnView(w, rpc, c, m, commits, l', t, t1);
  }

  /** What a scan that returns without an error has done, put together from its recovery and its commits. */
  lemma ScanMeans(
      w: World, rpc: Rpc, c: Config, latest: nat, t: nat, resumed: nat, t1: nat,
      l: L.Ledger, recovery: seq<Runs.Step>, m: L.Ledger, commits: seq<Runs.Step>, l': L.Ledger)
    requires t + 2 <= resumed <= t1 && rpc.latest(t + 1) == Some(latest) && latest >= c.options.confirmations
    requires Traced(rpc, c, l, recovery, m) && forall s | s in recovery :: !s.Commit?
    requires Resumed(rpc, c, w.views(t), latest, t + 2, resumed, l, m)
    requires Committed(rpc, c, m, commits, l', t, t1)
    requires Ahead(l, latest) ==> commits == []
    requires !Ahead(l, latest) ==> Runs.NextBlock(c, l') > latest - c.options.confirmations
    ensures Calm(w, rpc, c, l, t, t1) ==> CaughtUp(w.dag, c, w.views(t), l, l')
  {
    if Calm(w, rpc, c, l, t, t1) {
      LatestIsHead(w, rpc, c, l, t, latest);
      if Ahead(l, latest) {
        RecoveryStaysExact(w, rpc, c, l, recovery, m);
      } else {
        ScanStaysOnView(w, rpc, c, latest, t, resumed, t1, l, recovery, m, commits, l');
      }
    }
  }

  // ------------------------------------------------ one scan that is served

  /** A calm scan of a provider that goes on answering, with a history short enough to search. */
  ghost predicate Served(w: World, rpc: Rpc, c: Config, l: L.Ledger, t: nat, t1: nat) {
    Calm(w, rpc, c, l, t, t1) && Serving(w, rpc, t) && c.options.reorgDepth + 1 <= 100000
  }

  /** A batch after the checkpoint was fetched, and did not decode, did not route, or was refused by the store. */
  ghost predicate Refused(
      rpc: Rpc, c: Config, l: L.Ledger, latest: nat, t: nat, t1: nat, clock: nat -> int)
  {
    && c.options.confirmations <= latest <= MAX_UINT64 && 1 <= c.options.batchSize <= MAX_UINT64
    && var from, head := Runs.NextBlock(c, l), latest - c.options.confirmations;
    && from <= head
    && var to := BatchEnd(from, c.options.batchSize, head);
    && from <= to
    && exists u: nat, b :: t <= u <= t1 && IsBatch(rpc, u, from, to, b)
                           && Unstorable(c, l, b, clock(Finish(rpc, u, from, to)))
  }

  lemma ServedHead(w: World, rpc: Rpc, c: Config, l: L.Ledger, t: nat)
    ensures forall t1 | Served(w, rpc, c, l, t, t1) :: rpc.chainMatches(t) && rpc.latest(t + 1).Some?
  {
  }

  lemma ServedResumes(w: World, rpc: Rpc, c: Config, l: L.Ledger, latest: nat, t: nat, t1: nat)
    requires t + 2 <= t1 && rpc.latest(t + 1) == Some(latest)
    ensures Served(w, rpc, c, l, t, t1) ==> !ResumeFails(rpc, c, l, latest, t + 2, t1)
  {
    if Served(w, rpc, c, l, t, t1) {
      LatestIsHead(w, rpc, c, l, t, latest);
      forall u: nat, n: nat | u >= t && n <= latest ensures ParentAt(rpc, u, n).Some? && HashAt(rpc, u, n).Some? {
        RepliesAreOnView(w, rpc, c.options.filter, t, u, n);
      }
    }
  }

  /** The batch after a checkpoint on the served view is accepted whenever it is fetched. */
  lemma ServedBatchIsAccepted(
      w: World, rpc: Rpc, c: Config, l: L.Ledger, latest: nat, t: nat, u: nat, from: nat, to: nat)
    requires ValidWorld(w) && Honest(w, rpc, c.options.filter) && Serving(w, rpc, t) && t <= u
    requires AtHead(w.views(t), latest) && OnTheView(w.views(t), l)
    requires from == Runs.NextBlock(c, l) && from <= to <= latest
    ensures Accepts(rpc, c.options.filter, u, from, to, Runs.ExpectedParent(l))
  {
    ServingAcceptsIff(w, rpc, c.options.filter, t, u, from, to, Runs.ExpectedParent(l));
  }

  /** A blocked batch that is accepted was refused afterwards. */
  lemma StopIsRefusal(
      rpc: Rpc, c: Config, l: L.Ledger, latest: nat, t: nat, t1: nat, clock: nat -> int, u: nat, from: nat, to: nat)
    requires c.options.confirmations <= latest <= MAX_UINT64 && 1 <= c.options.batchSize <= MAX_UINT64
    requires from == Runs.NextBlock(c, l) <= to && from <= latest - c.options.confirmations
    requires to == BatchEnd(from, c.options.batchSize, latest - c.options.confirmations)
    requires t <= u <= t1 && Blocked(rpc, c, l, from, to, u, clock)
    requires Accepts(rpc, c.options.filter, u, from, to, Runs.ExpectedParent(l))
    ensures Refused(rpc, c, l, latest, t, t1, clock)
  {
    var b :| IsBatch(rpc, u, from, to, b) && Unstorable(c, l, b, clock(Finish(rpc, u, from, to)));
  }

  lemma StopsByRefusal(
      w: World, rpc: Rpc, c: Config, l: L.Ledger, latest: nat, t: nat, t1: nat, clock: nat -> int)
    requires ValidWorld(w) && Honest(w, rpc, c.options.filter) && Serving(w, rpc, t)
    requires AtHead(w.views(t), latest) && OnTheView(w.views(t), l) && c.options.confirmations <= latest <= MAX_UINT64
    requires ScanStops(rpc, c, l, latest - c.options.confirmations, t + 2, t1, clock)
    ensures Refused(rpc, c, l, latest, t, t1, clock)
  {
    var from, head := Runs.NextBlock(c, l), latest - c.options.confirmations;
    var to := BatchEnd(from, c.options.batchSize, head);
    BatchEndDoesNotWrap(from, c.options.batchSize, head);
    var u: nat :| t + 2 <= u <= t1 && Blocked(rpc, c, l, from, to, u, clock);
    ServedBatchIsAccepted(w, rpc, c, l, latest, t, u, from, to);
    StopIsRefusal(rpc, c, l, latest, t, t1, clock, u, from, to);
  }

  /** How a scan ends: caught up, or stopped by a cause, which a served scan leaves only to the store. */
  ghost predicate Ends(
      w: World, rpc: Rpc, c: Config, l: L.Ledger, l': L.Ledger, latest: nat, t: nat, t1: nat,
      clock: nat -> int, ok: bool)
  {
    if ok then Calm(w, rpc, c, l, t, t1) ==> CaughtUp(w.dag, c, w.views(t), l, l')
    else
      && ScanFails(rpc, c, l, l', latest, t + 2, t1, clock)
      && (Served(w, rpc, c, l, t, t1) ==> Refused(rpc, c, l', latest, t, t1, clock))
  }

  /** One scan: its trail, how it ends, and what it is confined to. */
  ghost predicate Scanned(
      w: World, rpc: Rpc, c: Config, l: L.Ledger, l': L.Ledger, latest: nat, t: nat, t1: nat,
      clock: nat -> int, steps: seq<Runs.Step>, ok: bool)
  {
    match ok
    case true => Moved(rpc, c, l, l', latest, t, t1, steps) && Ends(w, rpc, c, l, l', latest, t, t1, clock, true)
    case false => Moved(rpc, c, l, l', latest, t, t1, steps) && Ends(w, rpc, c, l, l', latest, t, t1, clock, false)
  }

  ghost predicate Moved(
      rpc: Rpc, c: Config, l: L.Ledger, l': L.Ledger, latest: nat, t: nat, t1: nat, steps: seq<Runs.Step>)
  {
    Trail(rpc, c, l, steps, l', t, t1) && Confined(rpc, c, l, l', latest, t + 2, t1, steps)
  }

  lemma ScanMoves(
      w: World, rpc: Rpc, c: Config, latest: nat, t: nat, resumed: nat, t1: nat, l: L.Ledger,
      recovery: seq<Runs.Step>, m: L.Ledger, commits: seq<Runs.Step>, l': L.Ledger)
    requires t + 2 <= resumed <= t1 && c.options.confirmations <= latest
    requires Begun(rpc, c, w.views(t), l, m, latest, t + 2, resumed, recovery)
    requires Climbed(rpc, c, m, commits, l', latest - c.options.confirmations, resumed, t1)
    ensures Moved(rpc, c, l, l', latest, t, t1, recovery + commits)
  {
    WholeTrace(rpc, c, l, recovery, m, commits, l', t, resumed, t1);
    ScanIsConfined(rpc, c, l, l', latest, t + 2, resumed, t1, recovery, commits);
  }

  /** Recovery and commits make one trail, and it ends as it should. */
  lemma ScanConcludes(
      w: World, rpc: Rpc, c: Config, latest: nat, t: nat, resumed: nat, t1: nat, l: L.Ledger,
      recovery: seq<Runs.Step>, m: L.Ledger, commits: seq<Runs.Step>, l': L.Ledger, clock: nat -> int, ok: bool)
    requires t + 2 <= resumed <= t1 && rpc.latest(t + 1) == Some(latest)
    requires c.options.confirmations <= latest <= MAX_UINT64 && !Ahead(l, latest)
    requires Begun(rpc, c, w.views(t), l, m, latest, t + 2, resumed, recovery)
    requires Advanced(rpc, c, m, commits, l', latest - c.options.confirmations, resumed, t1, clock, ok)
    ensures Scanned(w, rpc, c, l, l', latest, t, t1, clock, recovery + commits, ok)
  {
    ScanMoves(w, rpc, c, latest, t, resumed, t1, l, recovery, m, commits, l');
    ScanEnds(w, rpc, c, latest, t, resumed, t1, l, recovery, m, commits, l', clock, ok);
  }

  /** Whatever ledger and recovery the scan resumed from, the commits conclude it. */
  ghost predicate Concludes(
      w: World, rpc: Rpc, c: Config, m: L.Ledger, commits: seq<Runs.Step>, l': L.Ledger, latest: nat, t: nat,
      resumed: nat, t1: nat, clock: nat -> int, ok: bool)
  {
    forall l, recovery |
      Begun(rpc, c, w.views(t), l, m, latest, t + 2, resumed, recovery) && !Ahead(l, latest) ::
      Scanned(w, rpc, c, l, l', latest, t, t1, clock, recovery + commits, ok)
  }

  lemma AnyScanConcludes(
      w: World, rpc: Rpc, c: Config, latest: nat, t: nat, resumed: nat, t1: nat, m: L.Ledger,
      commits: seq<Runs.Step>, l': L.Ledger, clock: nat -> int, ok: bool)
    requires t + 2 <= resumed <= t1 && rpc.latest(t + 1) == Some(latest)
    requires c.options.confirmations <= latest <= MAX_UINT64
    requires Advanced(rpc, c, m, commits, l', latest - c.options.confirmations, resumed, t1, clock, ok)
    ensures Concludes(w, rpc, c, m, commits, l', latest, t, resumed, t1, clock, ok)
  {
    forall l, recovery | Begun(rpc, c, w.views(t), l, m, latest, t + 2, resumed, recovery) && !Ahead(l, latest)
      ensures Scanned(w, rpc, c, l, l', latest, t, t1, clock, recovery + commits, ok)
    {
      ScanConcludes(w, rpc, c, latest, t, resumed, t1, l, recovery, m, commits, l', clock, ok);
    }
  }

  /** A scan that has nothing to fetch after resuming. */
  lemma ScanRests(
      w: World, rpc: Rpc, c: Config, latest: nat, t: nat, t1: nat, l: L.Ledger, recovery: seq<Runs.Step>, m: L.Ledger,
      clock: nat -> int)
    requires t + 2 <= t1 && rpc.latest(t + 1) == Some(latest) && c.options.confirmations <= latest
    requires Begun(rpc, c, w.views(t), l, m, latest, t + 2, t1, recovery)
    requires !Ahead(l, latest) ==> Runs.NextBlock(c, m) > latest - c.options.confirmations
    ensures Scanned(w, rpc, c, l, m, latest, t, t1, clock, recovery, true)
  {
    ScanMeans(w, rpc, c, latest, t, t1, t1, l, recovery, m, [], m);
    RecoveryIsConfined(rpc, c, l, m, latest, t + 2, t1, recovery);
  }

  /** A scan that fails to resume. */
  lemma ScanFailsToResume(
      w: World, rpc: Rpc, c: Config, latest: nat, t: nat, t1: nat, l: L.Ledger, clock: nat -> int)
    requires t + 2 <= t1 && rpc.latest(t + 1) == Some(latest) && ResumeFails(rpc, c, l, latest, t + 2, t1)
    ensures Scanned(w, rpc, c, l, l, latest, t, t1, clock, [], false)
  {
    ServedResumes(w, rpc, c, l, latest, t, t1);
    RecoveryIsConfined(rpc, c, l, l, latest, t + 2, t1, []);
  }

  lemma ScanEnds(
      w: World, rpc: Rpc, c: Config, latest: nat, t: nat, resumed: nat, t1: nat, l: L.Ledger,
      recovery: seq<Runs.Step>, m: L.Ledger, commits: seq<Runs.Step>, l': L.Ledger, clock: nat -> int, ok: bool)
    requires t + 2 <= resumed <= t1 && rpc.latest(t + 1) == Some(latest)
    requires c.options.confirmations <= latest <= MAX_UINT64 && !Ahead(l, latest)
    requires Traced(rpc, c, l, recovery, m) && forall s | s in recovery :: !s.Commit?
    requires Resumed(rpc, c, w.views(t), latest, t + 2, resumed, l, m)
    requires Committed(rpc, c, m, commits, l', t, t1)
    requires if ok then Runs.NextBlock(c, l') > latest - c.options.confirmations
             else ScanStops(rpc, c, l', latest - c.options.confirmations, resumed, t1, clock)
    ensures Ends(w, rpc, c, l, l', latest, t, t1, clock, ok)
  {
    if ok {
      ScanMeans(w, rpc, c, latest, t, resumed, t1, l, recovery, m, commits, l');
    } else {
      StopsInside(rpc, c, l', latest - c.options.confirmations, t + 2, resumed, t1, clock);
      RefusedOnly(w, rpc, c, latest, t, resumed, t1, l, recovery, m, commits, l', clock);
    }
  }

  lemma RefusedOnly(
      w: World, rpc: Rpc, c: Config, latest: nat, t: nat, resumed: nat, t1: nat,
      l: L.Ledger, recovery: seq<Runs.Step>, m: L.Ledger, commits: seq<Runs.Step>, l': L.Ledger, clock: nat -> int)
    requires t + 2 <= resumed <= t1 && rpc.latest(t + 1) == Some(latest)
    requires c.options.confirmations <= latest <= MAX_UINT64 && !Ahead(l, latest)
    requires Traced(rpc, c, l, recovery, m) && forall s | s in recovery :: !s.Commit?
    requires Resumed(rpc, c, w.views(t), latest, t + 2, resumed, l, m)
    requires Committed(rpc, c, m, commits, l', t, t1)
    requires ScanStops(rpc, c, l', latest - c.options.confirmations, t + 2, t1, clock)
    ensures Served(w, rpc, c, l, t, t1) ==> Refused(rpc, c, l', latest, t, t1, clock)
  {
    if Served(w, rpc, c, l, t, t1) {
      LatestIsHead(w, rpc, c, l, t, latest);
      ScanStaysOnView(w, rpc, c, latest, t, resumed, t1, l, recovery, m, commits, l');
      StopsByRefusal(w, rpc, c, l', latest, t, t1, clock);
    }
  }

  /** What one commit of the scan loop needs and leaves. */
  lemma CommitFacts(rpc: Rpc, c: Config, l: L.Ledger, s: Runs.Step)
    requires Aligned(c, l) && s.Commit? && Runs.Issued(rpc, c, l, s)
    ensures Aligned(c, Runs.Apply(rpc, c, l, s))
    ensures Runs.Apply(rpc, c, l, s).checkpoint == Some(s.batch.checkpoint)
    ensures s.batch.checkpoint.number == s.to
  {
    Mixed.CommitExtendsHistory(rpc, c, l, s);
  }

  lemma RewindFacts(rpc: Rpc, c: Config, l: L.Ledger, block: CanonicalBlock)
    requires Aligned(c, l) && l.checkpoint.Some? && block.number in l.canonical && l.canonical[block.number] == block
    ensures var l' := RewindCanonical(l, block.number + 1, block.hash);
            && Aligned(c, l') && Traced(rpc, c, l, [Runs.Rewind(block.number)], l')
            && Runs.NextBlock(c, l') == block.number + 1
            && forall v | FoundMeans(v, l, Some(block)) :: Undone(c, v, l, l')
  {
    OneStep(rpc, c, l, Runs.Rewind(block.number));
  }

  lemma ResetFacts(rpc: Rpc, c: Config, l: L.Ledger)
    requires ValidOptions(c.options) && Aligned(c, l) && l.checkpoint.Some?
    ensures ResetFrom(l, c.options.startBlock).Ok?
    ensures var l' := ResetFrom(l, c.options.startBlock).value;
            && Aligned(c, l') && Traced(rpc, c, l, [Runs.Reset], l')
            && Runs.NextBlock(c, l') == c.options.startBlock
            && forall v | FoundMeans(v, l, None) :: Undone(c, v, l, l')
  {
    OneStep(rpc, c, l, Runs.Reset);
  }

  /** A trace of commits fetched within the given span of calls leads from one ledger to the other. */
  ghost predicate Committed(rpc: Rpc, c: Config, l: L.Ledger, steps: seq<Runs.Step>, l': L.Ledger, lo: nat, hi: nat) {
    && Traced(rpc, c, l, steps, l')
    && (forall s | s in steps :: s.Commit?) && Within(rpc, steps, lo, hi)
  }

  /** A trace of any steps, its fetches within the given span of calls, leads from one ledger to the other. */
  ghost predicate Trail(rpc: Rpc, c: Config, l: L.Ledger, steps: seq<Runs.Step>, l': L.Ledger, lo: nat, hi: nat) {
    Traced(rpc, c, l, steps, l') && Within(rpc, steps, lo, hi)
  }

  /** Every committed batch is within the batch size and does not pass the confirmed head. */
  ghost predicate Sized(c: Config, steps: seq<Runs.Step>, last: nat) {
    forall s | s in steps && s.Commit? :: s.from <= s.to <= last && s.to - s.from + 1 <= c.options.batchSize
  }

  /** Sized commits that stay at or below the confirmed head. */
  ghost predicate Climbed(
      rpc: Rpc, c: Config, l: L.Ledger, commits: seq<Runs.Step>, l': L.Ledger, confirmedHead: nat, t: nat, t1: nat)
  {
    && Committed(rpc, c, l, commits, l', t, t1) && Sized(c, commits, confirmedHead)
    && (l'.checkpoint.Some? ==> l'.checkpoint.value.number <= confirmedHead)
  }

  /** Sized commits below the confirmed head that reach it, or stop at a blocked batch. */
  ghost predicate Advanced(
      rpc: Rpc, c: Config, l: L.Ledger, commits: seq<Runs.Step>, l': L.Ledger, confirmedHead: nat, t: nat, t1: nat,
      clock: nat -> int, ok: bool)
  {
    match ok
    case true => Climbed(rpc, c, l, commits, l', confirmedHead, t, t1) && Runs.NextBlock(c, l') == confirmedHead + 1
    case false =>
      Climbed(rpc, c, l, commits, l', confirmedHead, t, t1) && ScanStops(rpc, c, l', confirmedHead, t, t1, clock)
  }

  lemma WholeTrace(
      rpc: Rpc, c: Config, l: L.Ledger, recovery: seq<Runs.Step>, m: L.Ledger, commits: seq<Runs.Step>, l': L.Ledger,
      t: nat, t1: nat, t2: nat)
    requires t <= t1 && Traced(rpc, c, l, recovery, m) && forall s | s in recovery :: !s.Commit?
    requires Committed(rpc, c, m, commits, l', t1, t2)
    ensures Trail(rpc, c, l, recovery + commits, l', t, t2)
    ensures Committed(rpc, c, m, commits, l', t, t2)
  {
    Join(rpc, c, l, recovery, m, commits, l');
  }

  lemma Extend(
      rpc: Rpc, c: Config, l: L.Ledger, steps: seq<Runs.Step>, m: L.Ledger, more: seq<Runs.Step>, l': L.Ledger,
      t: nat, t1: nat, t2: nat)
    requires t <= t1 <= t2 && Committed(rpc, c, l, steps, m, t, t1) && Committed(rpc, c, m, more, l', t1, t2)
    ensures Committed(rpc, c, l, steps + more, l', t, t2)
  {
    Join(rpc, c, l, steps, m, more, l');
  }

  lemma {:induction false} Join(
      rpc: Rpc, c: Config, l: L.Ledger, steps: seq<Runs.Step>, m: L.Ledger, more: seq<Runs.Step>, l': L.Ledger)
    requires Traced(rpc, c, l, steps, m) && Traced(rpc, c, m, more, l')
    ensures Traced(rpc, c, l, steps + more, l')
    decreases |steps|
  {
    if steps == [] {
      assert steps + more == more;
    } else {
      Join(rpc, c, Runs.Apply(rpc, c, l, steps[0]), steps[1..], m, more, l');
      assert (steps + more)[1..] == steps[1..] + more;
    }
  }

  lemma OneStep(rpc: Rpc, c: Config, l: L.Ledger, s: Runs.Step)
    requires Runs.Issued(rpc, c, l, s)
    ensures Runs.Run(rpc, c, l, [s]) && Runs.After(rpc, c, l, [s]) == Runs.Apply(rpc, c, l, s)
  {
    assert [s][1..] == [];
  }

  /**
   Undoing a fork deletes exactly the events of orphaned blocks: it keeps every event whose block the view
   holds, and the new checkpoint is the last block that the old chain and the view share. Without a
   retained block on the view everything goes.
   */
  lemma ForkIsUndone(dag: Dag, c: Config, v: View, l: L.Ledger, l': L.Ledger)
    requires ValidDag(dag) && ValidView(dag, v) && ValidConfig(c)
    requires Exact(dag, c, l) && l.checkpoint.Some? && Undone(c, v, l, l')
    ensures (exists n: nat :: StillHeld(v, l, n)) ==>
              && (forall e :: Stored(l', e) <==> Stored(l, e) && v.Has(e.blockNumber, e.blockHash))
              && l'.checkpoint.Some? && OnTheView(v, l')
              && forall n | l'.checkpoint.value.number < n <= l.checkpoint.value.number ::
                   !v.Has(n, Ancestor(dag, l.checkpoint.value.hash, n))
    ensures !(exists n: nat :: StillHeld(v, l, n)) ==> l' == L.Ledger(None, map[], map[], l'.deliveries)
  {
    if exists n: nat :: StillHeld(v, l, n) {
      var n: nat :| HighestHeld(v, l, n) && l' == RewindCanonical(l, n + 1, l.canonical[n].hash);
      forall e ensures Stored(l', e) <==> Stored(l, e) && v.Has(e.blockNumber, e.blockHash) {
        if Stored(l, e) {
          OrphanIffAbove(dag, c, v, l, n, e.blockNumber);
        }
      }
      forall m | n < m <= l.checkpoint.value.number ensures !v.Has(m, Ancestor(dag, l.checkpoint.value.hash, m)) {
        OrphanIffAbove(dag, c, v, l, n, m);
      }
    } else {
      ResetEmpties(dag, c, l);
    }
  }

  /** A block of the old chain is on the view iff it is not above the highest retained common block. */
  lemma OrphanIffAbove(dag: Dag, c: Config, v: View, l: L.Ledger, n: nat, m: nat)
    requires ValidDag(dag) && ValidView(dag, v) && Exact(dag, c, l) && l.checkpoint.Some?
    requires HighestHeld(v, l, n) && m <= l.checkpoint.value.number
    ensures v.Has(m, Ancestor(dag, l.checkpoint.value.hash, m)) <==> m <= n
  {
    var tip := l.checkpoint.value.hash;
    if m <= n {
      ViewHoldsAncestry(dag, v, l.canonical[n].hash, n, m);
      AncestorOfAncestor(dag, tip, n, m);
    } else {
      assert m in l.canonical && !StillHeld(v, l, m);
    }
  }

  ghost predicate FoundMeans(v: View, l: L.Ledger, found: Option<CanonicalBlock>) {
    match found
    case None => forall n :: !StillHeld(v, l, n)
    case Some(a) => HighestHeld(v, l, a.number) && l.canonical[a.number] == a
  }

  /** The first match among the newest rows is the highest retained common block. */
  lemma FoundIsHighest(c: Config, v: View, l: L.Ledger, blocks: seq<CanonicalBlock>, found: Option<CanonicalBlock>)
    requires KeyedByNumber(l.canonical) && l.checkpoint.Some?
    requires blocks == Newest(l.canonical, c.options.reorgDepth + 1)
    ensures Windowed(c, l) && FirstHeld(v, blocks, found) ==> FoundMeans(v, l, found)
  {
    if Windowed(c, l) && FirstHeld(v, blocks, found) {
      FirstHeldIsHighest(c, v, l, blocks, found);
    }
  }

  lemma SearchJustifies(
      rpc: Rpc, c: Config, l: L.Ledger, blocks: seq<CanonicalBlock>, latest: nat, t: nat, t1: nat,
      found: Option<CanonicalBlock>)
    requires KeyedByNumber(l.canonical) && blocks == Newest(l.canonical, c.options.reorgDepth + 1)
    requires exists n: nat :: n <= |blocks| && Searched(rpc, blocks, latest, t, t1, n)
                              && found == if n < |blocks| then Some(blocks[n]) else None
    ensures var s := if found.Some? then Runs.Rewind(found.value.number) else Runs.Reset;
            StepJustified(rpc, c, l, latest, t, t1, s)
  {
    NewestAreRows(l.canonical, c.options.reorgDepth + 1);
    var n: nat :| n <= |blocks| && Searched(rpc, blocks, latest, t, t1, n)
                  && found == if n < |blocks| then Some(blocks[n]) else None;
    forall b | b in blocks && b.number <= latest && (found.Some? ==> found.value.number < b.number)
      ensures Differs(rpc, b, t, t1)
    {
      var j :| 0 <= j < |blocks| && blocks[j] == b;
      assert j < n;
    }
  }

  lemma HeldIsListed(c: Config, v: View, l: L.Ledger, blocks: seq<CanonicalBlock>, n: nat)
    requires KeyedByNumber(l.canonical) && l.checkpoint.Some? && Windowed(c, l)
    requires blocks == Newest(l.canonical, c.options.reorgDepth + 1) && StillHeld(v, l, n)
    ensures exists i :: 0 <= i < |blocks| && blocks[i] == l.canonical[n] && v.Has(blocks[i].number, blocks[i].hash)
  {
    NewestIsWhole(l.canonical, l.checkpoint.value.number, c.options.reorgDepth + 1, n);
    var i :| 0 <= i < |blocks| && blocks[i] == l.canonical[n];
  }

  lemma FirstHeldIsHighest(c: Config, v: View, l: L.Ledger, blocks: seq<CanonicalBlock>, found: Option<CanonicalBlock>)
    requires KeyedByNumber(l.canonical) && l.checkpoint.Some? && Windowed(c, l)
    requires blocks == Newest(l.canonical, c.options.reorgDepth + 1)
    requires FirstHeld(v, blocks, found)
    ensures FoundMeans(v, l, found)
  {
    NewestAreRows(l.canonical, c.options.reorgDepth + 1);
    if found.Some? {
      var i :| 0 <= i < |blocks| && blocks[i] == found.value
               && forall j | 0 <= j < i :: !v.Has(blocks[j].number, blocks[j].hash);
      forall m: nat | StillHeld(v, l, m) ensures m <= found.value.number {
        HeldIsListed(c, v, l, blocks, m);
        var j :| 0 <= j < |blocks| && blocks[j] == l.canonical[m] && v.Has(blocks[j].number, blocks[j].hash);
        assert j >= i;
      }
    } else {
      forall m: nat ensures !StillHeld(v, l, m) {
        if StillHeld(v, l, m) { HeldIsListed(c, v, l, blocks, m); }
      }
    }
  }
}
