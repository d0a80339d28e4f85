/** What an accepted batch says about the chain when the provider is honest. */
module FetchTruth {
  import opened Common
  import opened Chain
  import opened Records
  import opened Provider
  import opened Fetch

  function HashesOf(blocks: seq<CanonicalBlock>): seq<Hash> {
    seq(|blocks|, i requires 0 <= i < |blocks| => blocks[i].hash)
  }

  /** The shape of every accepted batch, whatever the provider: consecutive, linked, sorted, one log per identity. */
  lemma AcceptedShape(rpc: Rpc, f: Filter, t0: nat, from: nat, to: nat, expected: Option<Hash>, b: Batch)
    requires from <= to && Accepts(rpc, f, t0, from, to, expected) && IsBatch(rpc, t0, from, to, b)
    ensures |b.blocks| == to - from + 1 && b.checkpoint == Checkpoint(to, b.blocks[to - from].hash)
    ensures forall i | 0 <= i < |b.blocks| :: b.blocks[i].number == from + i && b.blocks[i].hash != ZERO_HASH
    ensures LinksUp(b.blocks, from, expected)
    ensures Sorted(b.logs) && DistinctIds(b.logs)
    ensures forall r | r in b.logs ::
              from <= r.blockNumber <= to && r.blockHash == b.blocks[r.blockNumber - from].hash
  {
    forall i | 0 <= i < |b.blocks| ensures b.blocks[i].number == from + i && b.blocks[i].hash != ZERO_HASH {
      assert b.blocks[i] == BlockAt(rpc, t0, from, to, from + i);
      assert ReadHash(rpc, t0, from, to, from + i).Some?;
    }
    forall r | r in b.logs
      ensures from <= r.blockNumber <= to && r.blockHash == b.blocks[r.blockNumber - from].hash
    {
      var log :| log in rpc.logs(t0 + 2, from, to).value && RawOf(log) == r;
    }
  }

  // ----------------------------------------------------- when each reply was read

  ghost function HashTime(rpc: Rpc, t0: nat, from: nat, to: nat, n: nat): nat
    requires from <= n <= to
  {
    if n == to then t0 + 1
    else match rpc.kind
      case TwoCall => t0 + 4 + 2 * (n - from)
      case SingleCall => t0 + 3 + (n - from)
      case BatchCapable => if rpc.batch(t0 + 3, from, to).BatchUnsupported? then t0 + 4 + (n - from) else t0 + 3
  }

  ghost function ParentTime(rpc: Rpc, t0: nat, from: nat, to: nat, n: nat): nat
    requires from <= n <= to
  {
    if n == to then t0
    else if rpc.kind == TwoCall then t0 + 3 + 2 * (n - from)
    else HashTime(rpc, t0, from, to, n)
  }

  lemma ReadsAreTrue(w: World, rpc: Rpc, f: Filter, t0: nat, from: nat, to: nat, n: nat)
    requires Honest(w, rpc, f) && from <= n <= to && HeadersRead(rpc, t0, from, to)
    ensures w.views(HashTime(rpc, t0, from, to, n)).Has(n, BlockAt(rpc, t0, from, to, n).hash)
    ensures TrueHeader(w.dag, w.views(ParentTime(rpc, t0, from, to, n)), n, BlockAt(rpc, t0, from, to, n).parent)
    ensures t0 <= HashTime(rpc, t0, from, to, n) < Finish(rpc, t0, from, to)
    ensures t0 <= ParentTime(rpc, t0, from, to, n) < Finish(rpc, t0, from, to)
  {
    assert ReadHash(rpc, t0, from, to, n).Some? && ReadParent(rpc, t0, from, to, n).Some?;
    if n < to && rpc.kind == BatchCapable && rpc.batch(t0 + 3, from, to).Headers? {
      var hs := rpc.batch(t0 + 3, from, to).headers;
      assert hs[n - from] in hs && hs[n - from].number == n;
    }
  }

  /** The block the provider's view has at this height at this call. */
  ghost function BlockOn(w: World, t: nat, n: nat): Option<Hash> {
    var v := w.views(t);
    if v.Up? && n < |v.hashes| then Some(v.hashes[n]) else None
  }

  ghost function ParentOn(w: World, t: nat, n: nat): Option<Hash> {
    var h := BlockOn(w, t, n);
    if h.Some? && h.value in w.dag then Some(w.dag[h.value].parent) else None
  }

  /** At every height, the block whose hash is read and the block whose parent is read have the same parent. */
  ghost predicate ParentsAgree(w: World, rpc: Rpc, t0: nat, from: nat, to: nat)
    requires from <= to
  {
    forall n | from <= n <= to :: ParentAgrees(w, rpc, t0, from, to, n)
  }

  ghost predicate ParentAgrees(w: World, rpc: Rpc, t0: nat, from: nat, to: nat, n: nat)
    requires from <= n <= to
  {
    ParentOn(w, HashTime(rpc, t0, from, to, n), n) == ParentOn(w, ParentTime(rpc, t0, from, to, n), n)
  }

  /** The accepted blocks are a run of the true chain. */
  ghost predicate TrueBlocks(dag: Dag, from: nat, blocks: seq<CanonicalBlock>) {
    && Linked(dag, from, HashesOf(blocks))
    && (forall i | 0 <= i < |blocks| :: blocks[i].hash in dag && blocks[i].parent == dag[blocks[i].hash].parent)
  }

  /** What was read at a height: the hash of one view's block and the parent of another view's. */
  lemma ReadAt(w: World, rpc: Rpc, f: Filter, t0: nat, from: nat, to: nat, n: nat)
    requires ValidWorld(w) && Honest(w, rpc, f) && from <= n <= to && HeadersRead(rpc, t0, from, to)
    ensures var b := BlockAt(rpc, t0, from, to, n);
            && BlockOn(w, HashTime(rpc, t0, from, to, n), n) == Some(b.hash)
            && b.hash in w.dag && w.dag[b.hash].number == n
            && ParentOn(w, HashTime(rpc, t0, from, to, n), n) == Some(w.dag[b.hash].parent)
            && ParentOn(w, ParentTime(rpc, t0, from, to, n), n) == Some(b.parent)
  {
    ReadsAreTrue(w, rpc, f, t0, from, to, n);
    assert ValidView(w.dag, w.views(HashTime(rpc, t0, from, to, n)));
  }

  /** Accepted blocks are a run of the true chain if and only if the parents agree. */
  lemma TrueBlocksIffParentsAgree(w: World, rpc: Rpc, f: Filter, t0: nat, from: nat, to: nat, expected: Option<Hash>)
    requires ValidWorld(w) && Honest(w, rpc, f) && from <= to && Accepts(rpc, f, t0, from, to, expected)
    ensures TrueBlocks(w.dag, from, BlocksRead(rpc, t0, from, to)) <==> ParentsAgree(w, rpc, t0, from, to)
  {
    var blocks := BlocksRead(rpc, t0, from, to);
    forall i | 0 <= i < |blocks|
      ensures blocks[i].hash in w.dag && w.dag[blocks[i].hash].number == from + i
      ensures ParentAgrees(w, rpc, t0, from, to, from + i) <==> blocks[i].parent == w.dag[blocks[i].hash].parent
    {
      ReadAt(w, rpc, f, t0, from, to, from + i);
    }
    if TrueBlocks(w.dag, from, blocks) {
      forall n | from <= n <= to ensures ParentAgrees(w, rpc, t0, from, to, n) {
        var i := n - from;
        assert blocks[i].parent == w.dag[blocks[i].hash].parent;
        assert from + i == n;
      }
    }
    if ParentsAgree(w, rpc, t0, from, to) {
      forall i | 0 <= i < |blocks| ensures blocks[i].parent == w.dag[blocks[i].hash].parent {
        assert ParentAgrees(w, rpc, t0, from, to, from + i);
      }
    }
  }

  // -------------------------------------------------------------- completeness

  /** A log of one of the accepted blocks that the filter asks for. */
  ghost predicate BatchLog(dag: Dag, f: Filter, from: nat, blocks: seq<CanonicalBlock>, log: Log) {
    && from <= log.blockNumber < from + |blocks|
    && log.blockHash == blocks[log.blockNumber - from].hash
    && log.blockHash in dag && log in dag[log.blockHash].logs
    && MatchesFilter(log, f)
  }

  ghost predicate Sound(dag: Dag, f: Filter, from: nat, b: Batch) {
    forall r | r in b.logs :: exists log :: BatchLog(dag, f, from, b.blocks, log) && RawOf(log) == r
  }

  ghost predicate Complete(dag: Dag, f: Filter, from: nat, b: Batch) {
    forall log | BatchLog(dag, f, from, b.blocks, log) :: RawOf(log) in b.logs
  }

  /** The block has a log that the filter asks for. */
  ghost predicate Wanted(dag: Dag, f: Filter, h: Hash) {
    h in dag && exists log :: log in dag[h].logs && MatchesFilter(log, f)
  }

  /**
   At every height where the view has a block with a wanted log when its hash is read, the log query at
   t0 + 2 is answered from that same block.
   */
  ghost predicate LogViewHolds(w: World, rpc: Rpc, f: Filter, t0: nat, from: nat, to: nat)
    requires from <= to
  {
    forall n | from <= n <= to ::
      var h := BlockOn(w, HashTime(rpc, t0, from, to, n), n);
      h.Some? && Wanted(w.dag, f, h.value) ==> BlockOn(w, t0 + 2, n) == h
  }

  lemma AcceptedLogsAreSound(
      w: World, rpc: Rpc, f: Filter, t0: nat, from: nat, to: nat, expected: Option<Hash>, b: Batch)
    requires Honest(w, rpc, f) && from <= to
    requires Accepts(rpc, f, t0, from, to, expected) && IsBatch(rpc, t0, from, to, b)
    ensures Sound(w.dag, f, from, b)
  {
    forall r | r in b.logs ensures exists log :: BatchLog(w.dag, f, from, b.blocks, log) && RawOf(log) == r {
      var log :| log in rpc.logs(t0 + 2, from, to).value && RawOf(log) == r;
      assert OnView(w.dag, w.views(t0 + 2), f, from, to, log);
      assert BatchLog(w.dag, f, from, b.blocks, log);
    }
  }

  /** An accepted batch misses no log if and only if the log query was answered from the blocks that were read. */
  lemma CompleteIffLogViewHolds(
      w: World, rpc: Rpc, f: Filter, t0: nat, from: nat, to: nat, expected: Option<Hash>, b: Batch)
    requires ValidWorld(w) && Honest(w, rpc, f) && from <= to
    requires Accepts(rpc, f, t0, from, to, expected) && IsBatch(rpc, t0, from, to, b)
    ensures Complete(w.dag, f, from, b) <==> LogViewHolds(w, rpc, f, t0, from, to)
  {
    if Complete(w.dag, f, from, b) {
      forall n | from <= n <= to
        ensures var h := BlockOn(w, HashTime(rpc, t0, from, to, n), n);
                h.Some? && Wanted(w.dag, f, h.value) ==> BlockOn(w, t0 + 2, n) == h
      {
        CompleteMeansQueried(w, rpc, f, t0, from, to, b, n);
      }
    }
    if LogViewHolds(w, rpc, f, t0, from, to) {
      forall log | BatchLog(w.dag, f, from, b.blocks, log) ensures RawOf(log) in b.logs {
        QueriedMeansReturned(w, rpc, f, t0, from, to, b, log);
      }
    }
  }

  lemma CompleteMeansQueried(w: World, rpc: Rpc, f: Filter, t0: nat, from: nat, to: nat, b: Batch, n: nat)
    requires ValidWorld(w) && Honest(w, rpc, f) && from <= n <= to && IsBatch(rpc, t0, from, to, b)
    requires Complete(w.dag, f, from, b)
    ensures var h := BlockOn(w, HashTime(rpc, t0, from, to, n), n);
            h.Some? && Wanted(w.dag, f, h.value) ==> BlockOn(w, t0 + 2, n) == h
  {
    ReadAt(w, rpc, f, t0, from, to, n);
    var h := b.blocks[n - from].hash;
    assert b.blocks[n - from] == BlockAt(rpc, t0, from, to, n);
    if Wanted(w.dag, f, h) {
      var log :| log in w.dag[h].logs && MatchesFilter(log, f);
      assert ValidBlock(w.dag, h);
      assert BatchLog(w.dag, f, from, b.blocks, log);
      var seen :| seen in rpc.logs(t0 + 2, from, to).value && RawOf(seen) == RawOf(log);
      assert OnView(w.dag, w.views(t0 + 2), f, from, to, seen);
    }
  }

  lemma QueriedMeansReturned(w: World, rpc: Rpc, f: Filter, t0: nat, from: nat, to: nat, b: Batch, log: Log)
    requires ValidWorld(w) && Honest(w, rpc, f) && from <= to && IsBatch(rpc, t0, from, to, b)
    requires LogViewHolds(w, rpc, f, t0, from, to) && BatchLog(w.dag, f, from, b.blocks, log)
    ensures RawOf(log) in b.logs
  {
    var n := log.blockNumber;
    ReadAt(w, rpc, f, t0, from, to, n);
    assert b.blocks[n - from] == BlockAt(rpc, t0, from, to, n);
    assert Wanted(w.dag, f, log.blockHash);
    assert BlockOn(w, t0 + 2, n) == Some(log.blockHash);
    assert OnView(w.dag, w.views(t0 + 2), f, from, to, log);
    assert log in rpc.logs(t0 + 2, from, to).value;
  }

  /** A batch that is exactly a run of the true chain with exactly its wanted logs. */
  ghost predicate Genuine(dag: Dag, f: Filter, from: nat, b: Batch) {
    && b.blocks != []
    && TrueBlocks(dag, from, b.blocks)
    && b.checkpoint == Checkpoint(from + |b.blocks| - 1, b.blocks[|b.blocks| - 1].hash)
    && Sound(dag, f, from, b) && Complete(dag, f, from, b)
  }

  /** An accepted batch is genuine if and only if the two conditions on views and call times hold. */
  lemma GenuineIff(w: World, rpc: Rpc, f: Filter, t0: nat, from: nat, to: nat, expected: Option<Hash>, b: Batch)
    requires ValidWorld(w) && Honest(w, rpc, f) && from <= to
    requires Accepts(rpc, f, t0, from, to, expected) && IsBatch(rpc, t0, from, to, b)
    ensures Genuine(w.dag, f, from, b) <==>
            ParentsAgree(w, rpc, t0, from, to) && LogViewHolds(w, rpc, f, t0, from, to)
  {
    TrueBlocksIffParentsAgree(w, rpc, f, t0, from, to, expected);
    CompleteIffLogViewHolds(w, rpc, f, t0, from, to, expected, b);
    AcceptedLogsAreSound(w, rpc, f, t0, from, to, expected, b);
  }

  lemma TimesAreWithin(rpc: Rpc, t0: nat, from: nat, to: nat, n: nat)
    requires from <= n <= to
    ensures t0 <= HashTime(rpc, t0, from, to, n) < Finish(rpc, t0, from, to)
    ensures t0 <= ParentTime(rpc, t0, from, to, n) < Finish(rpc, t0, from, to)
  {
  }

  /** A view that stands still for the fetch meets both conditions. */
  lemma StandingViewAgrees(w: World, rpc: Rpc, f: Filter, t0: nat, from: nat, to: nat)
    requires from <= to && Stable(w, t0, Finish(rpc, t0, from, to))
    ensures ParentsAgree(w, rpc, t0, from, to) && LogViewHolds(w, rpc, f, t0, from, to)
  {
    forall n | from <= n <= to
      ensures w.views(HashTime(rpc, t0, from, to, n)) == w.views(t0)
      ensures w.views(ParentTime(rpc, t0, from, to, n)) == w.views(t0)
    {
      TimesAreWithin(rpc, t0, from, to, n);
    }
    assert w.views(t0 + 2) == w.views(t0);
  }

  /** If the view stands still for one fetch, the accepted batch is genuine and lies on that view. */
  lemma StableFetchIsGenuine(
      w: World, rpc: Rpc, f: Filter, t0: nat, from: nat, to: nat, expected: Option<Hash>, b: Batch)
    requires ValidWorld(w) && Honest(w, rpc, f) && from <= to
    requires Accepts(rpc, f, t0, from, to, expected) && IsBatch(rpc, t0, from, to, b)
    requires Stable(w, t0, Finish(rpc, t0, from, to))
    ensures Genuine(w.dag, f, from, b)
    ensures forall i | 0 <= i < |b.blocks| :: w.views(t0).Has(from + i, b.blocks[i].hash)
  {
    StandingViewAgrees(w, rpc, f, t0, from, to);
    GenuineIff(w, rpc, f, t0, from, to, expected, b);
    forall i | 0 <= i < |b.blocks| ensures w.views(t0).Has(from + i, b.blocks[i].hash) {
      var n := from + i;
      ReadAt(w, rpc, f, t0, from, to, n);
      TimesAreWithin(rpc, t0, from, to, n);
      assert b.blocks[i] == BlockAt(rpc, t0, from, to, n);
      assert w.views(HashTime(rpc, t0, from, to, n)) == w.views(t0);
    }
  }

  // ------------------------------------------------- one view, one batch

  lemma {:induction false} SortedIsUnique(a: seq<RawLog>, b: seq<RawLog>)
    requires Sorted(a) && Sorted(b) && DistinctIds(a) && DistinctIds(b)
    requires forall r :: r in a <==> r in b
    requires forall r, s | r in a && s in a && r.blockNumber == s.blockNumber && r.logIndex == s.logIndex :: r == s
    ensures a == b
    decreases |a|
  {
    if a == [] {
      EmptyOrMember(b);
    } else {
      FirstsAgree(a, b);
      TailMembers(a, b);
      SortedIsUnique(a[1..], b[1..]);
      assert a == [a[0]] + a[1..] && b == [b[0]] + b[1..];
    }
  }

  lemma EmptyOrMember(b: seq<RawLog>)
    ensures b == [] || exists r :: r in b
  {
    if b != [] { assert b[0] in b; }
  }

  lemma FirstsAgree(a: seq<RawLog>, b: seq<RawLog>)
    requires Sorted(a) && Sorted(b) && a != []
    requires forall r :: r in a <==> r in b
    requires forall r, s | r in a && s in a && r.blockNumber == s.blockNumber && r.logIndex == s.logIndex :: r == s
    ensures b != [] && a[0] == b[0]
  {
    assert a[0] in b;
    assert b != [] && b[0] in a;
    var i :| 0 <= i < |a| && a[i] == b[0];
    var j :| 0 <= j < |b| && b[j] == a[0];
    assert i == 0 || Before(a[0], a[i]);
    assert j == 0 || Before(b[0], b[j]);
  }

  lemma TailMembers(a: seq<RawLog>, b: seq<RawLog>)
    requires a != [] && b != [] && a[0] == b[0] && DistinctIds(a) && DistinctIds(b)
    requires forall r :: r in a <==> r in b
    ensures forall r :: r in a[1..] <==> r in b[1..]
  {
    forall r ensures r in a[1..] <==> r in b[1..] {
      if r in a[1..] {
        var i :| 1 <= i < |a| && a[i] == r;
        assert r in b && r != a[0];
      }
      if r in b[1..] {
        var i :| 1 <= i < |b| && b[i] == r;
        assert r in a && r != b[0];
      }
    }
  }

  lemma BatchLogsAreKeyed(dag: Dag, f: Filter, from: nat, b: Batch, r: RawLog, s: RawLog)
    requires ValidDag(dag) && Sound(dag, f, from, b)
    requires r in b.logs && s in b.logs && r.blockNumber == s.blockNumber && r.logIndex == s.logIndex
    ensures r == s
  {
    var x :| BatchLog(dag, f, from, b.blocks, x) && RawOf(x) == r;
    var y :| BatchLog(dag, f, from, b.blocks, y) && RawOf(y) == s;
    WantedLogsAreKeyed(dag, f, from, b.blocks, x, y);
  }

  lemma WantedLogsAreKeyed(dag: Dag, f: Filter, from: nat, blocks: seq<CanonicalBlock>, x: Log, y: Log)
    requires ValidDag(dag) && BatchLog(dag, f, from, blocks, x) && BatchLog(dag, f, from, blocks, y)
    requires x.blockNumber == y.blockNumber && x.index == y.index
    ensures x == y
  {
    assert x.blockHash == y.blockHash;
    LogsAreKeyedByIndex(dag, x.blockHash, x, y);
  }

  lemma LogsAreKeyedByIndex(dag: Dag, h: Hash, x: Log, y: Log)
    requires ValidDag(dag) && h in dag && x in dag[h].logs && y in dag[h].logs && x.index == y.index
    ensures x == y
  {
    assert ValidBlock(dag, h);
    var logs := dag[h].logs;
    var i :| 0 <= i < |logs| && logs[i] == x;
    var j :| 0 <= j < |logs| && logs[j] == y;
    assert i == j;
  }

  /**
   The batch call, its sequential fallback, the single call and the two-call header paths
   return the same batch on the same view, whoever the provider is and whenever it is asked.
   */
  lemma PathsAgree(
      w: World, f: Filter, from: nat, to: nat,
      rpc: Rpc, t: nat, expected: Option<Hash>, b: Batch,
      rpc': Rpc, t': nat, expected': Option<Hash>, b': Batch)
    requires ValidWorld(w) && Honest(w, rpc, f) && Honest(w, rpc', f) && from <= to
    requires Accepts(rpc, f, t, from, to, expected) && IsBatch(rpc, t, from, to, b)
    requires Accepts(rpc', f, t', from, to, expected') && IsBatch(rpc', t', from, to, b')
    requires Stable(w, t, Finish(rpc, t, from, to)) && Stable(w, t', Finish(rpc', t', from, to))
    requires w.views(t) == w.views(t')
    ensures b == b'
  {
    StableFetchIsGenuine(w, rpc, f, t, from, to, expected, b);
    StableFetchIsGenuine(w, rpc', f, t', from, to, expected', b');
    AcceptedShape(rpc, f, t, from, to, expected, b);
    AcceptedShape(rpc', f, t', from, to, expected', b');
    assert b.blocks == b'.blocks by {
      forall i | 0 <= i < |b.blocks| ensures b.blocks[i] == b'.blocks[i] {
        assert w.views(t).Has(from + i, b.blocks[i].hash) && w.views(t).Has(from + i, b'.blocks[i].hash);
      }
    }
    forall r ensures r in b.logs <==> r in b'.logs {
      if r in b.logs {
        var log :| BatchLog(w.dag, f, from, b.blocks, log) && RawOf(log) == r;
        assert BatchLog(w.dag, f, from, b'.blocks, log);
      }
      if r in b'.logs {
        var log :| BatchLog(w.dag, f, from, b'.blocks, log) && RawOf(log) == r;
        assert BatchLog(w.dag, f, from, b.blocks, log);
      }
    }
    forall r, s | r in b.logs && s in b.logs && r.blockNumber == s.blockNumber && r.logIndex == s.logIndex
      ensures r == s
    {
      BatchLogsAreKeyed(w.dag, f, from, b, r, s);
    }
    SortedIsUnique(b.logs, b'.logs);
  }
}
