/** A reorganisation inside one fetch: the header reads and the log query can straddle it. */
module MidFetch {
  import opened Common
  import opened Chain
  import opened Records
  import opened Provider
  import opened Fetch
  import opened FetchTruth

  const ANY := Filter([], [])
  const LOST := Log(1, 2, 7, 0, 0, 9, [], [], false)

  /** Two siblings at height 1; only the first has a log. */
  function Siblings(h: Hash): Block {
    if h == 1 then Block(0, 0, []) else if h == 2 then Block(1, 1, [LOST]) else Block(1, 1, [])
  }

  ghost const FORKED: World :=
    World(imap h: Hash | h == 1 || h == 2 || h == 3 :: Siblings(h),
          (t: nat) => if t == 2 then Up([1, 3]) else Up([1, 2]))

  /** Truthful at every call; the logs are asked for while the second sibling is canonical. */
  const FLICKERING := Rpc(
    SingleCall,
    t => true,
    t => None,
    (t, n) => if n == 1 then Some(Header(1, 1)) else None,
    (t, n) => None,
    (t, n) => if n == 1 && t != 2 then Some(CanonicalHeader(2, 1)) else None,
    (t, from, to) => BatchFailed,
    (t, from, to) => if t == 2 && from == 1 && to == 1 then Some([]) else None)

  lemma ForkIsValid()
    ensures ValidWorld(FORKED)
  {
    var dag := FORKED.dag;
    forall h | h in dag ensures ValidBlock(dag, h) {}
    forall t: nat ensures ValidView(dag, FORKED.views(t)) {}
  }

  /** The replies of one call are true of the view at that call. */
  lemma FlickeringReplies(t: nat, n: nat)
    ensures var v := FORKED.views(t);
            && (FLICKERING.header(t, n).Some? ==> TrueHeader(FORKED.dag, v, n, FLICKERING.header(t, n).value.parent))
            && (FLICKERING.canonical(t, n).Some? ==>
                  && v.Has(n, FLICKERING.canonical(t, n).value.hash)
                  && TrueHeader(FORKED.dag, v, n, FLICKERING.canonical(t, n).value.parent))
  {
  }

  lemma FlickeringLogs(t: nat, from: nat, to: nat, log: Log)
    requires FLICKERING.logs(t, from, to).Some?
    ensures FLICKERING.logs(t, from, to).value == [] && FORKED.views(t).Up?
    ensures !OnView(FORKED.dag, FORKED.views(t), ANY, from, to, log)
  {
    assert FORKED.views(t).hashes[1] == 3 && FORKED.dag[3].logs == [];
  }

  lemma FlickeringIsHonest()
    ensures Honest(FORKED, FLICKERING, ANY)
  {
    forall t: nat, n: nat { FlickeringReplies(t, n); }
    forall t: nat, from: nat, to: nat, log | FLICKERING.logs(t, from, to).Some? {
      FlickeringLogs(t, from, to, log);
    }
  }

  /**
   An honest provider can make a fetch accept a batch that misses a log, because nothing ties the
   log query to the blocks read around it. The condition under which none is missed is
   FetchTruth.CompleteIffLogViewHolds.
   */
  lemma MidFetchReorgLosesLogs()
    ensures exists w, rpc, f, t0, from: nat, to: nat, expected, b ::
              && ValidWorld(w) && Honest(w, rpc, f) && from <= to && expected == Some(1)
              && Accepts(rpc, f, t0, from, to, expected) && IsBatch(rpc, t0, from, to, b)
              && TrueBlocks(w.dag, from, b.blocks) && !Complete(w.dag, f, from, b)
  {
    ForkIsValid();
    FlickeringIsHonest();
    var w, rpc := FORKED, FLICKERING;
    assert HeadersRead(rpc, 0, 1, 1);
    assert BlockAt(rpc, 0, 1, 1, 1) == CanonicalBlock(1, 2, 1);
    var b := Batch([], BlocksRead(rpc, 0, 1, 1), Checkpoint(1, 2));
    assert b.blocks == [CanonicalBlock(1, 2, 1)];
    assert Accepts(rpc, ANY, 0, 1, 1, Some(1)) && IsBatch(rpc, 0, 1, 1, b);
    assert BatchLog(w.dag, ANY, 1, b.blocks, LOST);
  }

  // ------------------------------------------------ two branches in one block

  /** Two branches of two blocks each: 1-2-4 and 1-3-5. */
  function Branches(h: Hash): Block {
    if h == 1 then Block(0, 0, [])
    else if h == 2 || h == 3 then Block(1, 1, [])
    else Block(2, if h == 4 then 2 else 3, [])
  }

  ghost const TWO_BRANCHES: World :=
    World(imap h: Hash | 1 <= h <= 5 :: Branches(h), (t: nat) => if t == 0 then Up([1, 2, 4]) else Up([1, 3, 5]))

  /** Truthful at every call; the header is read on the first branch and the hash on the second. */
  const SWITCHING := Rpc(
    SingleCall,
    t => true,
    t => None,
    (t, n) => if n == 2 && t == 0 then Some(Header(2, 2)) else None,
    (t, n) => None,
    (t, n) => if n == 2 && t == 1 then Some(CanonicalHeader(5, 3)) else None,
    (t, from, to) => BatchFailed,
    (t, from, to) => if t == 2 && from == 2 && to == 2 then Some([]) else None)

  lemma BranchesAreValid()
    ensures ValidWorld(TWO_BRANCHES)
  {
    var dag := TWO_BRANCHES.dag;
    forall h | h in dag ensures ValidBlock(dag, h) {}
    BranchesAreLinked();
  }

  lemma BranchesAreLinked()
    ensures forall t: nat :: ValidView(TWO_BRANCHES.dag, TWO_BRANCHES.views(t))
  {
    assert Linked(TWO_BRANCHES.dag, 0, [1, 2, 4]) && Linked(TWO_BRANCHES.dag, 0, [1, 3, 5]);
  }

  lemma SwitchingReplies(t: nat, n: nat)
    ensures var v := TWO_BRANCHES.views(t);
            && (SWITCHING.header(t, n).Some? ==>
                  TrueHeader(TWO_BRANCHES.dag, v, n, SWITCHING.header(t, n).value.parent))
            && (SWITCHING.canonical(t, n).Some? ==>
                  && v.Has(n, SWITCHING.canonical(t, n).value.hash)
                  && TrueHeader(TWO_BRANCHES.dag, v, n, SWITCHING.canonical(t, n).value.parent))
  {
  }

  lemma SwitchingIsHonest()
    ensures Honest(TWO_BRANCHES, SWITCHING, ANY)
  {
    forall t: nat, n: nat { SwitchingReplies(t, n); }
    forall t: nat, from: nat, to: nat, log | SWITCHING.logs(t, from, to).Some?
      ensures SWITCHING.logs(t, from, to).value == [] && TWO_BRANCHES.views(t).Up?
      ensures !OnView(TWO_BRANCHES.dag, TWO_BRANCHES.views(t), ANY, from, to, log)
    {
    }
  }

  /**
   The end header and the end hash are two calls: an honest provider can make a fetch accept a block with the
   parent of a block on another branch, so that it seems to descend from the checkpoint and does not. The
   exact condition is FetchTruth.TrueBlocksIffParentsAgree.
   */
  lemma MidFetchReorgMixesBranches()
    ensures exists w, rpc, f, t0, from: nat, to: nat, expected, b ::
              && ValidWorld(w) && Honest(w, rpc, f) && from <= to && expected == Some(2)
              && Accepts(rpc, f, t0, from, to, expected) && IsBatch(rpc, t0, from, to, b)
              && Complete(w.dag, f, from, b) && !TrueBlocks(w.dag, from, b.blocks)
  {
    BranchesAreValid();
    SwitchingIsHonest();
    var w, rpc := TWO_BRANCHES, SWITCHING;
    assert HeadersRead(rpc, 0, 2, 2);
    assert BlockAt(rpc, 0, 2, 2, 2) == CanonicalBlock(2, 5, 2);
    var b := Batch([], BlocksRead(rpc, 0, 2, 2), Checkpoint(2, 5));
    assert b.blocks == [CanonicalBlock(2, 5, 2)];
    assert Accepts(rpc, ANY, 0, 2, 2, Some(2)) && IsBatch(rpc, 0, 2, 2, b);
    assert w.dag[5].parent == 3 && b.blocks[0].parent == 2;
  }
}
