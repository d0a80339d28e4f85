/**
 The chain as seen from outside the program: a block DAG in which a hash
 determines number, parent and logs, and the provider's moving view of it.
 */
module Chain {

  type Hash = nat
  const ZERO_HASH: Hash := 0

  datatype Log = Log(
    blockNumber: nat, blockHash: Hash, tx: Hash, txIndex: nat, index: nat,
    address: nat, topics: seq<Hash>, data: seq<nat>, removed: bool)

  datatype Block = Block(number: nat, parent: Hash, logs: seq<Log>)

  type Dag = imap<Hash, Block>

  ghost predicate ValidBlock(dag: Dag, h: Hash)
    requires h in dag
  {
    var b := dag[h];
    && (b.number > 0 ==> b.parent in dag && dag[b.parent].number == b.number - 1)
    && (forall log | log in b.logs :: log.blockHash == h && log.blockNumber == b.number && !log.removed)
    && (forall i, j | 0 <= i < j < |b.logs| :: b.logs[i].index != b.logs[j].index)
  }

  ghost predicate ValidDag(dag: Dag) {
    ZERO_HASH !in dag && forall h {:trigger ValidBlock(dag, h)} | h in dag :: ValidBlock(dag, h)
  }

  /** The ancestor of `h` at height `n`. */
  ghost function Ancestor(dag: Dag, h: Hash, n: nat): (a: Hash)
    requires ValidDag(dag) && h in dag && n <= dag[h].number
    ensures a in dag && dag[a].number == n
    decreases dag[h].number
  {
    assert ValidBlock(dag, h);
    if dag[h].number == n then h else Ancestor(dag, dag[h].parent, n)
  }

  lemma {:induction false} AncestorOfAncestor(dag: Dag, h: Hash, m: nat, n: nat)
    requires ValidDag(dag) && h in dag && n <= m <= dag[h].number
    ensures Ancestor(dag, Ancestor(dag, h, m), n) == Ancestor(dag, h, n)
    decreases dag[h].number
  {
    assert ValidBlock(dag, h);
    if m < dag[h].number {
      AncestorOfAncestor(dag, dag[h].parent, m, n);
    }
  }

  /** A run of blocks, one per height from `from`, each the parent of the next. */
  ghost predicate Linked(dag: Dag, from: nat, hashes: seq<Hash>) {
    && (forall i | 0 <= i < |hashes| :: hashes[i] in dag && dag[hashes[i]].number == from + i)
    && (forall i, j | 0 <= i < j < |hashes| && j == i + 1 :: dag[hashes[j]].parent == hashes[i])
  }

  /** A linked run is the ancestry of its last block. */
  lemma {:induction false} LinkedIsAncestry(dag: Dag, from: nat, hashes: seq<Hash>, last: nat, i: nat)
    requires ValidDag(dag) && Linked(dag, from, hashes) && i <= last < |hashes|
    ensures Ancestor(dag, hashes[last], from + i) == hashes[i]
    decreases last
  {
    assert ValidBlock(dag, hashes[last]);
    if i < last {
      assert dag[hashes[last]].parent == hashes[last - 1];
      LinkedIsAncestry(dag, from, hashes, last - 1, i);
    }
  }

  /** What a provider answers from at one moment: nothing, or one chain from genesis to its head. */
  datatype View = Down | Up(hashes: seq<Hash>) {
    ghost predicate Has(n: nat, h: Hash) {
      Up? && n < |hashes| && hashes[n] == h
    }
  }

  ghost predicate ValidView(dag: Dag, v: View) {
    v.Up? ==> |v.hashes| > 0 && Linked(dag, 0, v.hashes)
  }

  /** A view holds the whole ancestry of every block it holds. */
  lemma ViewHoldsAncestry(dag: Dag, v: View, h: Hash, m: nat, n: nat)
    requires ValidDag(dag) && ValidView(dag, v) && v.Has(m, h) && n <= m
    ensures h in dag && dag[h].number == m
    ensures v.Has(n, Ancestor(dag, h, n))
  {
    LinkedIsAncestry(dag, 0, v.hashes, m, n);
  }

  /** The DAG together with the view the provider answers from at each call. */
  datatype World = World(dag: Dag, views: nat -> View)

  ghost predicate ValidWorld(w: World) {
    ValidDag(w.dag) && forall t: nat :: ValidView(w.dag, w.views(t))
  }

  /** The view did not change for the calls made at times lo, ..., hi - 1. */
  ghost predicate Stable(w: World, lo: nat, hi: nat) {
    forall t: nat | lo <= t < hi :: w.views(t) == w.views(lo)
  }
}
