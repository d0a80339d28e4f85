/**
 A JSON-RPC provider as the scanner meets it: every reply is a function of the
 time of the call, so replies may fail, lie, or follow any reorganisation
 between two calls. Honesty is a separate predicate.
 */
module Provider {
  import opened Common
  import opened Chain
  import opened Records

  datatype Header = Header(number: nat, parent: Hash)

  datatype CanonicalHeader = CanonicalHeader(hash: Hash, parent: Hash)

  datatype BatchReply = BatchFailed | BatchUnsupported | Headers(headers: seq<CanonicalBlock>)

  /** The optional interfaces the provider implements. */
  datatype Kind = BatchCapable | SingleCall | TwoCall

  datatype Rpc = Rpc(
    kind: Kind,
    chainMatches: nat -> bool,
    latest: nat -> Option<nat>,
    header: (nat, nat) -> Option<Header>,
    hash: (nat, nat) -> Option<Hash>,
    canonical: (nat, nat) -> Option<CanonicalHeader>,
    batch: (nat, nat, nat) -> BatchReply,
    logs: (nat, nat, nat) -> Option<seq<Log>>)

  /** The parent that the header of a height names; a header of another height is an error. */
  function ParentAt(rpc: Rpc, t: nat, n: nat): Option<Hash> {
    match rpc.header(t, n)
    case Some(h) => if h.number == n then Some(h.parent) else None
    case None => None
  }

  /** The hash at a height; the empty hash is an error. */
  function HashAt(rpc: Rpc, t: nat, n: nat): Option<Hash> {
    match rpc.hash(t, n)
    case Some(h) => if h == ZERO_HASH then None else Some(h)
    case None => None
  }

  /** Hash and parent at a height, in one reply; the empty hash is an error. */
  function CanonicalAt(rpc: Rpc, t: nat, n: nat): Option<CanonicalHeader> {
    match rpc.canonical(t, n)
    case Some(c) => if c.hash == ZERO_HASH then None else Some(c)
    case None => None
  }

  /** headerByNumber: the parent named by a header of the requested height. */
  method HeaderByNumber(rpc: Rpc, t: nat, n: nat) returns (r: Option<Hash>)
    ensures r == ParentAt(rpc, t, n)
  {
    var header := rpc.header(t, n);
    if header.None? || header.value.number != n {
      return None;
    }
    r := Some(header.value.parent);
  }

  /** blockHashByNumber */
  method BlockHashByNumber(rpc: Rpc, t: nat, n: nat) returns (r: Option<Hash>)
    ensures r == HashAt(rpc, t, n)
  {
    r := rpc.hash(t, n);
    if r == Some(ZERO_HASH) {
      r := None;
    }
  }

  /** canonicalHeaderByNumber */
  method CanonicalHeaderByNumber(rpc: Rpc, t: nat, n: nat) returns (r: Option<CanonicalHeader>)
    ensures r == CanonicalAt(rpc, t, n)
  {
    r := rpc.canonical(t, n);
    if r.Some? && r.value.hash == ZERO_HASH {
      r := None;
    }
  }

  /** The log is one the provider's view holds in the queried range. */
  ghost predicate OnView(dag: Dag, v: View, f: Filter, from: nat, to: nat, log: Log) {
    && from <= log.blockNumber <= to
    && v.Has(log.blockNumber, log.blockHash)
    && log.blockHash in dag && log in dag[log.blockHash].logs
    && MatchesFilter(log, f)
  }

  ghost predicate TrueHeader(dag: Dag, v: View, n: nat, parent: Hash) {
    v.Up? && n < |v.hashes| && v.hashes[n] in dag && dag[v.hashes[n]].parent == parent
  }

  /** Every reply that is not a failure is true of the provider's view at that call. */
  ghost predicate Honest(w: World, rpc: Rpc, f: Filter) {
    && (forall t: nat | rpc.latest(t).Some? ::
          w.views(t).Up? && rpc.latest(t).value == |w.views(t).hashes| - 1)
    && (forall t: nat, n: nat | rpc.header(t, n).Some? && rpc.header(t, n).value.number == n ::
          TrueHeader(w.dag, w.views(t), n, rpc.header(t, n).value.parent))
    && (forall t: nat, n: nat | rpc.hash(t, n).Some? :: w.views(t).Has(n, rpc.hash(t, n).value))
    && (forall t: nat, n: nat | rpc.canonical(t, n).Some? ::
          && w.views(t).Has(n, rpc.canonical(t, n).value.hash)
          && TrueHeader(w.dag, w.views(t), n, rpc.canonical(t, n).value.parent))
    && (forall t: nat, from: nat, to: nat | rpc.batch(t, from, to).Headers? ::
          forall b | b in rpc.batch(t, from, to).headers ::
            w.views(t).Has(b.number, b.hash) && TrueHeader(w.dag, w.views(t), b.number, b.parent))
    && (forall t: nat, from: nat, to: nat | rpc.logs(t, from, to).Some? ::
          w.views(t).Up? &&
          forall log :: log in rpc.logs(t, from, to).value <==> OnView(w.dag, w.views(t), f, from, to, log))
  }
}
