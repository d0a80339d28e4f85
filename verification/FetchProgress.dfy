/** When a fetch must succeed: a provider that stands on one view and answers every call about it. */
module FetchProgress {
  import opened Common
  import opened Chain
  import opened Records
  import opened Provider
  import opened Fetch
  import opened FetchTruth

  /** From `t` on, every call is answered from the view of that moment. */
  ghost predicate Standing(w: World, t: nat) {
    w.views(t).Up? && forall u: nat | u >= t :: w.views(u) == w.views(t)
  }

  /** From `t` on, every question about the first `height` blocks is answered; batches may be unsupported. */
  ghost predicate Answering(rpc: Rpc, height: nat, t: nat) {
    && (forall u: nat | u >= t :: rpc.chainMatches(u) && rpc.latest(u).Some?)
    && (forall u: nat, n: nat | u >= t && n < height ::
          rpc.header(u, n).Some? && rpc.header(u, n).value.number == n)
    && (forall u: nat, n: nat | u >= t && n < height :: rpc.hash(u, n).Some?)
    && (forall u: nat, n: nat | u >= t && n < height :: rpc.canonical(u, n).Some?)
    && (forall u: nat, from: nat, to: nat | u >= t && from <= to < height :: BatchAnswered(rpc, u, from, to))
    && (forall u: nat, from: nat, to: nat | u >= t && from <= to < height :: rpc.logs(u, from, to).Some?)
  }

  ghost predicate BatchAnswered(rpc: Rpc, t: nat, from: nat, to: nat)
    requires from <= to
  {
    match rpc.batch(t, from, to)
    case BatchFailed => false
    case BatchUnsupported => true
    case Headers(hs) => |hs| == to - from + 1 && forall i | 0 <= i < |hs| :: hs[i].number == from + i
  }

  /** A transaction is on a chain once: no two logs of the view share an identity. */
  ghost predicate DistinctLogs(dag: Dag, v: View) {
    forall x, y | LogOn(dag, v, x) && LogOn(dag, v, y) && IdOf(x) == IdOf(y) :: x == y
  }

  ghost predicate LogOn(dag: Dag, v: View, log: Log) {
    v.Has(log.blockNumber, log.blockHash) && log.blockHash in dag && log in dag[log.blockHash].logs
  }

  ghost predicate Serving(w: World, rpc: Rpc, t: nat) {
    && Standing(w, t) && DistinctLogs(w.dag, w.views(t))
    && Answering(rpc, |w.views(t).hashes|, t)
  }

  /** The range lies on the view, and so do the answers. */
  lemma HeadersAreRead(w: World, rpc: Rpc, f: Filter, t: nat, t0: nat, from: nat, to: nat)
    requires ValidWorld(w) && Honest(w, rpc, f) && Serving(w, rpc, t)
    requires t <= t0 && from <= to < |w.views(t).hashes|
    ensures HeadersRead(rpc, t0, from, to)
  {
    forall n | from <= n <= to
      ensures ReadHash(rpc, t0, from, to, n).Some? && ReadHash(rpc, t0, from, to, n).value != ZERO_HASH
      ensures ReadParent(rpc, t0, from, to, n).Some?
    {
      HeightIsRead(w, rpc, f, t, t0, from, to, n);
    }
    if rpc.kind == BatchCapable {
      BatchIsRead(w, rpc, f, t, t0 + 3, from, to, to);
    }
  }

  lemma RepliesAreOnView(w: World, rpc: Rpc, f: Filter, t: nat, u: nat, n: nat)
    requires ValidWorld(w) && Honest(w, rpc, f) && Serving(w, rpc, t)
    requires t <= u && n < |w.views(t).hashes|
    ensures ParentAt(rpc, u, n).Some? && HashAt(rpc, u, n).Some? && CanonicalAt(rpc, u, n).Some?
    ensures rpc.canonical(u, n).value.hash != ZERO_HASH && HashAt(rpc, u, n).value != ZERO_HASH
  {
    assert w.views(u) == w.views(t);
    assert ValidView(w.dag, w.views(u));
    assert w.views(u).Has(n, rpc.hash(u, n).value) && w.views(u).Has(n, rpc.canonical(u, n).value.hash);
  }

  lemma BatchIsRead(w: World, rpc: Rpc, f: Filter, t: nat, u: nat, from: nat, to: nat, n: nat)
    requires ValidWorld(w) && Honest(w, rpc, f) && Serving(w, rpc, t)
    requires t <= u && from <= n <= to < |w.views(t).hashes|
    ensures BatchedAt(rpc, u, from, to, n).Some? && BatchedAt(rpc, u, from, to, n).value.hash != ZERO_HASH
  {
    assert BatchAnswered(rpc, u, from, to);
    assert w.views(u) == w.views(t) && ValidView(w.dag, w.views(u));
    if rpc.batch(u, from, to).Headers? {
      var hs := rpc.batch(u, from, to).headers;
      forall i | 0 <= i < |hs| ensures hs[i].number == from + i && hs[i].hash != ZERO_HASH {
        assert hs[i] in hs;
        assert w.views(u).Has(hs[i].number, hs[i].hash);
      }
    } else {
      RepliesAreOnView(w, rpc, f, t, u + 1 + (n - from), n);
    }
  }

  lemma HeightIsRead(w: World, rpc: Rpc, f: Filter, t: nat, t0: nat, from: nat, to: nat, n: nat)
    requires ValidWorld(w) && Honest(w, rpc, f) && Serving(w, rpc, t)
    requires t <= t0 && from <= n <= to < |w.views(t).hashes|
    ensures ReadHash(rpc, t0, from, to, n).Some? && ReadHash(rpc, t0, from, to, n).value != ZERO_HASH
    ensures ReadParent(rpc, t0, from, to, n).Some?
  {
    if n == to {
      RepliesAreOnView(w, rpc, f, t, t0, n);
      RepliesAreOnView(w, rpc, f, t, t0 + 1, n);
    } else if rpc.kind == TwoCall {
      RepliesAreOnView(w, rpc, f, t, t0 + 3 + 2 * (n - from), n);
      RepliesAreOnView(w, rpc, f, t, t0 + 4 + 2 * (n - from), n);
    } else if rpc.kind == SingleCall {
      RepliesAreOnView(w, rpc, f, t, t0 + 3 + (n - from), n);
    } else {
      BatchIsRead(w, rpc, f, t, t0 + 3, from, to, n);
    }
  }

  /** The blocks read are the view's, linked to each other. */
  lemma BlocksAreTheViews(w: World, rpc: Rpc, f: Filter, t: nat, t0: nat, from: nat, to: nat)
    requires ValidWorld(w) && Honest(w, rpc, f) && Serving(w, rpc, t)
    requires t <= t0 && from <= to < |w.views(t).hashes| && HeadersRead(rpc, t0, from, to)
    ensures var blocks, v := BlocksRead(rpc, t0, from, to), w.views(t);
            && (forall i | 0 <= i < |blocks| ::
                  && blocks[i].hash == v.hashes[from + i] && v.hashes[from + i] in w.dag
                  && blocks[i].parent == w.dag[v.hashes[from + i]].parent)
            && LinksUp(blocks, from, None)
  {
    var blocks, v := BlocksRead(rpc, t0, from, to), w.views(t);
    forall i | 0 <= i < |blocks|
      ensures blocks[i].hash == v.hashes[from + i] && v.hashes[from + i] in w.dag
      ensures blocks[i].parent == w.dag[v.hashes[from + i]].parent
    {
      var n := from + i;
      ReadAt(w, rpc, f, t0, from, to, n);
      TimesAreWithin(rpc, t0, from, to, n);
      assert w.views(HashTime(rpc, t0, from, to, n)) == v && w.views(ParentTime(rpc, t0, from, to, n)) == v;
      assert blocks[i] == BlockAt(rpc, t0, from, to, n);
    }
    assert ValidView(w.dag, v);
    forall i, j | 0 <= i < j < |blocks| && j == i + 1 ensures blocks[j].parent == blocks[i].hash {
      assert w.dag[v.hashes[from + j]].parent == v.hashes[from + i];
    }
  }

  lemma LogsAreTheViews(w: World, rpc: Rpc, f: Filter, t: nat, u: nat, from: nat, to: nat)
    requires ValidWorld(w) && Honest(w, rpc, f) && Serving(w, rpc, t)
    requires t <= u && from <= to < |w.views(t).hashes|
    ensures rpc.logs(u, from, to).Some?
    ensures var logs := rpc.logs(u, from, to).value;
            && ValidLogs(logs, f, from, to) && NoConflicts(logs)
            && forall log | log in logs :: w.views(t).Has(log.blockNumber, log.blockHash)
  {
    var logs := rpc.logs(u, from, to).value;
    assert w.views(u) == w.views(t);
    forall log | log in logs
      ensures OnView(w.dag, w.views(t), f, from, to, log) && LogOn(w.dag, w.views(t), log) && !log.removed
    {
      assert ValidBlock(w.dag, log.blockHash);
    }
    forall i, j | 0 <= i < j < |logs| && IdOf(logs[i]) == IdOf(logs[j]) ensures logs[i] == logs[j] {
      assert logs[i] in logs && logs[j] in logs;
    }
  }

  /** On every header path the fetch accepts if and only if the first block's parent is the expected one. */
  lemma ServingAcceptsIff(
      w: World, rpc: Rpc, f: Filter, t: nat, t0: nat, from: nat, to: nat, expected: Option<Hash>)
    requires ValidWorld(w) && Honest(w, rpc, f) && Serving(w, rpc, t)
    requires t <= t0 && from <= to < |w.views(t).hashes|
    ensures Accepts(rpc, f, t0, from, to, expected) <==>
            (expected.Some? && from > 0 ==> w.views(t).Has(from - 1, expected.value))
  {
    HeadersAreRead(w, rpc, f, t, t0, from, to);
    BlocksAreTheViews(w, rpc, f, t, t0, from, to);
    LogsAreTheViews(w, rpc, f, t, t0 + 2, from, to);
    var blocks, v := BlocksRead(rpc, t0, from, to), w.views(t);
    forall log | log in rpc.logs(t0 + 2, from, to).value
      ensures log.blockHash == blocks[log.blockNumber - from].hash
    {
      assert blocks[log.blockNumber - from].hash == v.hashes[log.blockNumber];
    }
    if from > 0 {
      assert ValidView(w.dag, v);
      assert w.dag[v.hashes[from]].parent == v.hashes[from - 1];
      assert blocks[0].parent == v.hashes[from - 1];
    }
  }

  /** Providers of any kind that serve the same view accept the same ranges. */
  lemma PathsAcceptTogether(
      w: World, f: Filter, from: nat, to: nat, expected: Option<Hash>, rpc: Rpc, t: nat, rpc': Rpc, t': nat)
    requires ValidWorld(w) && Honest(w, rpc, f) && Honest(w, rpc', f) && Serving(w, rpc, t) && Serving(w, rpc', t')
    requires w.views(t) == w.views(t') && from <= to < |w.views(t).hashes|
    ensures Accepts(rpc, f, t, from, to, expected) <==> Accepts(rpc', f, t', from, to, expected)
  {
    ServingAcceptsIff(w, rpc, f, t, t, from, to, expected);
    ServingAcceptsIff(w, rpc', f, t', t', from, to, expected);
  }
}
