/** One verified batch: the snapshot, log query and header walk of fetchVerifiedBatch. */
module Fetch {
  import opened Common
  import opened Chain
  import opened Records
  import opened Provider

  datatype Batch = Batch(logs: seq<RawLog>, blocks: seq<CanonicalBlock>, checkpoint: Checkpoint)

  // --------------------------------------------- which reply each height rests on

  /** A batch reply is used only when it names exactly the requested heights and no empty hash. */
  predicate ValidHeaders(hs: seq<CanonicalBlock>, from: nat, to: nat)
    requires from <= to
  {
    |hs| == to - from + 1 && forall i | 0 <= i < |hs| :: hs[i].number == from + i && hs[i].hash != ZERO_HASH
  }

  /** The reply for height n when the calls are made one after another from time t. */
  function SequentialAt(rpc: Rpc, t: nat, from: nat, n: nat): Option<CanonicalHeader>
    requires from <= n
  {
    rpc.canonical(t + (n - from), n)
  }

  /** The reply for height n of a batch call at time t, or of the sequential fallback after it. */
  function BatchedAt(rpc: Rpc, t: nat, from: nat, to: nat, n: nat): Option<CanonicalHeader>
    requires from <= n <= to
  {
    match rpc.batch(t, from, to)
    case Headers(hs) =>
      if ValidHeaders(hs, from, to) then Some(CanonicalHeader(hs[n - from].hash, hs[n - from].parent)) else None
    case BatchUnsupported => SequentialAt(rpc, t + 1, from, n)
    case BatchFailed => None
  }

  function HashOf(c: Option<CanonicalHeader>): Option<Hash> {
    match c case Some(h) => Some(h.hash) case None => None
  }

  function ParentOf(c: Option<CanonicalHeader>): Option<Hash> {
    match c case Some(h) => Some(h.parent) case None => None
  }

  function EndHash(rpc: Rpc, t0: nat, to: nat): Option<Hash> {
    if rpc.kind == TwoCall then HashAt(rpc, t0 + 1, to) else HashOf(CanonicalAt(rpc, t0 + 1, to))
  }

  /** When the block at height n < to is read, and the two fields read from it. */
  function ReadHash(rpc: Rpc, t0: nat, from: nat, to: nat, n: nat): Option<Hash>
    requires from <= n <= to
  {
    if n == to then EndHash(rpc, t0, to)
    else match rpc.kind
      case TwoCall => HashAt(rpc, t0 + 4 + 2 * (n - from), n)
      case SingleCall => HashOf(CanonicalAt(rpc, t0 + 3 + (n - from), n))
      case BatchCapable => HashOf(BatchedAt(rpc, t0 + 3, from, to, n))
  }

  function ReadParent(rpc: Rpc, t0: nat, from: nat, to: nat, n: nat): Option<Hash>
    requires from <= n <= to
  {
    if n == to then ParentAt(rpc, t0, to)
    else match rpc.kind
      case TwoCall => ParentAt(rpc, t0 + 3 + 2 * (n - from), n)
      case SingleCall => ParentOf(CanonicalAt(rpc, t0 + 3 + (n - from), n))
      case BatchCapable => ParentOf(BatchedAt(rpc, t0 + 3, from, to, n))
  }

  /** The batch call also asks for the end block, whose reply must be present though it is not used. */
  predicate EndReplyPresent(rpc: Rpc, t0: nat, from: nat, to: nat)
    requires from <= to
  {
    rpc.kind == BatchCapable ==> BatchedAt(rpc, t0 + 3, from, to, to).Some?
  }

  /** The time after the last call of a fetch that succeeds. */
  function Finish(rpc: Rpc, t0: nat, from: nat, to: nat): nat
    requires from <= to
  {
    match rpc.kind
    case TwoCall => t0 + 3 + 2 * (to - from)
    case SingleCall => t0 + 3 + (to - from)
    case BatchCapable => if rpc.batch(t0 + 3, from, to).BatchUnsupported? then t0 + 5 + (to - from) else t0 + 4
  }

  predicate HeadersRead(rpc: Rpc, t0: nat, from: nat, to: nat)
    requires from <= to
  {
    && EndReplyPresent(rpc, t0, from, to)
    && (forall n | from <= n <= to ::
          && ReadHash(rpc, t0, from, to, n).Some? && ReadHash(rpc, t0, from, to, n).value != ZERO_HASH
          && ReadParent(rpc, t0, from, to, n).Some?)
  }

  function BlockAt(rpc: Rpc, t0: nat, from: nat, to: nat, n: nat): CanonicalBlock
    requires from <= n <= to && HeadersRead(rpc, t0, from, to)
  {
    CanonicalBlock(n, ReadHash(rpc, t0, from, to, n).value, ReadParent(rpc, t0, from, to, n).value)
  }

  // ------------------------------------------------------------- acceptance

  predicate NoConflicts(logs: seq<Log>) {
    forall i, j | 0 <= i < j < |logs| && IdOf(logs[i]) == IdOf(logs[j]) :: logs[i] == logs[j]
  }

  predicate ValidLogs(logs: seq<Log>, f: Filter, from: nat, to: nat) {
    forall log | log in logs :: !log.removed && from <= log.blockNumber <= to && MatchesFilter(log, f)
  }

  /** Each log lies in the block accepted at its height. */
  predicate LogsInBlocks(blocks: seq<CanonicalBlock>, from: nat, logs: seq<Log>) {
    forall log | log in logs ::
      from <= log.blockNumber < from + |blocks| && log.blockHash == blocks[log.blockNumber - from].hash
  }

  /** Each block names its predecessor as its parent, and the first one the expected parent. */
  ghost predicate LinksUp(blocks: seq<CanonicalBlock>, from: nat, expected: Option<Hash>) {
    && (expected.Some? && from > 0 && |blocks| > 0 ==> blocks[0].parent == expected.value)
    && (forall i, j | 0 <= i < j < |blocks| && j == i + 1 :: blocks[j].parent == blocks[i].hash)
  }

  /** The blocks the replies describe. */
  function BlocksRead(rpc: Rpc, t0: nat, from: nat, to: nat): seq<CanonicalBlock>
    requires from <= to && HeadersRead(rpc, t0, from, to)
  {
    seq(to - from + 1, i requires 0 <= i < to - from + 1 => BlockAt(rpc, t0, from, to, from + i))
  }

  /** Everything a fetch requires of the replies before it returns a batch. */
  ghost predicate Accepts(rpc: Rpc, f: Filter, t0: nat, from: nat, to: nat, expected: Option<Hash>)
    requires from <= to
  {
    && rpc.logs(t0 + 2, from, to).Some?
    && HeadersRead(rpc, t0, from, to)
    && var logs := rpc.logs(t0 + 2, from, to).value;
    var blocks := BlocksRead(rpc, t0, from, to);
    && ValidLogs(logs, f, from, to)
    && LinksUp(blocks, from, expected)
    && LogsInBlocks(blocks, from, logs)
    && NoConflicts(logs)
  }

  // ----------------------------------------------------------- deduplication

  predicate Before(a: RawLog, b: RawLog) {
    a.blockNumber < b.blockNumber || (a.blockNumber == b.blockNumber && a.logIndex <= b.logIndex)
  }

  predicate Sorted(s: seq<RawLog>) {
    forall i, j | 0 <= i < j < |s| :: Before(s[i], s[j])
  }

  predicate DistinctIds(s: seq<RawLog>) {
    forall i, j | 0 <= i < j < |s| :: s[i].Id() != s[j].Id()
  }

  /** The given logs, each once, in chain order. */
  ghost predicate IsDeduplicated(logs: seq<Log>, raw: seq<RawLog>) {
    && Sorted(raw) && DistinctIds(raw)
    && (forall log | log in logs :: RawOf(log) in raw)
    && (forall r | r in raw :: exists log :: log in logs && RawOf(log) == r)
  }

  method InsertInOrder(s: seq<RawLog>, x: RawLog) returns (r: seq<RawLog>)
    requires Sorted(s) && DistinctIds(s) && forall y | y in s :: y.Id() != x.Id()
    ensures Sorted(r) && DistinctIds(r)
    ensures forall y :: y in r <==> y == x || y in s
  {
    var p := |s|;
    while p > 0 && (s[p - 1].blockNumber > x.blockNumber
                    || (s[p - 1].blockNumber == x.blockNumber && s[p - 1].logIndex > x.logIndex))
      invariant 0 <= p <= |s|
      invariant forall i | p <= i < |s| :: !Before(s[i], x)
    {
      p := p - 1;
    }
    r := s[..p] + [x] + s[p..];
    forall i, j | 0 <= i < j < |r| ensures Before(r[i], r[j]) && r[i].Id() != r[j].Id() {
      InsertedPair(s, x, p, i, j);
    }
    InsertedMembers(s, x, p);
  }

  lemma InsertedPair(s: seq<RawLog>, x: RawLog, p: nat, i: nat, j: nat)
    requires Sorted(s) && DistinctIds(s) && p <= |s| && forall y | y in s :: y.Id() != x.Id()
    requires p > 0 ==> Before(s[p - 1], x)
    requires forall i | p <= i < |s| :: !Before(s[i], x)
    requires i < j <= |s|
    ensures var r := s[..p] + [x] + s[p..]; Before(r[i], r[j]) && r[i].Id() != r[j].Id()
  {
    var r := s[..p] + [x] + s[p..];
    if j == p {
      assert r[i] == s[i] && s[i] in s;
      assert i < p - 1 ==> Before(s[i], s[p - 1]);
    } else if i == p {
      assert r[j] == s[j - 1] && s[j - 1] in s && !Before(s[j - 1], x);
    } else {
      assert r[i] == s[if i < p then i else i - 1] && r[j] == s[if j < p then j else j - 1];
    }
  }

  lemma InsertedMembers(s: seq<RawLog>, x: RawLog, p: nat)
    requires p <= |s|
    ensures forall y :: y in s[..p] + [x] + s[p..] <==> y == x || y in s
  {
    var r := s[..p] + [x] + s[p..];
    forall y ensures y in r <==> y == x || y in s {
      assert s == s[..p] + s[p..];
      assert r[p] == x;
    }
  }

  method SortByPosition(s: seq<RawLog>) returns (r: seq<RawLog>)
    requires DistinctIds(s)
    ensures Sorted(r) && DistinctIds(r)
    ensures forall y :: y in r <==> y in s
  {
    r := [];
    for i := 0 to |s|
      invariant Sorted(r) && DistinctIds(r)
      invariant forall y :: y in r <==> y in s[..i]
    {
      forall y | y in r ensures y.Id() != s[i].Id() {
        assert y in s[..i];
      }
      r := InsertInOrder(r, s[i]);
      assert s[..i + 1] == s[..i] + [s[i]];
    }
    assert s[..|s|] == s;
  }

  method Deduplicate(logs: seq<Log>) returns (r: Result<seq<RawLog>, Error>)
    ensures r.Ok? <==> NoConflicts(logs)
    ensures r.Ok? ==> IsDeduplicated(logs, r.value)
  {
    var seen: map<EventId, Log> := map[];
    var result: seq<RawLog> := [];
    for i := 0 to |logs|
      invariant forall j | 0 <= j < i :: IdOf(logs[j]) in seen && seen[IdOf(logs[j])] == logs[j]
      invariant forall j | 0 <= j < i :: RawOf(logs[j]) in result
      invariant forall id | id in seen :: seen[id] in logs[..i] && IdOf(seen[id]) == id
      invariant forall x | x in result :: x.Id() in seen && RawOf(seen[x.Id()]) == x
      invariant DistinctIds(result)
    {
      var log := logs[i];
      var id := EventId(log.tx, log.index);
      assert logs[..i + 1] == logs[..i] + [log];
      if id in seen {
        if seen[id] != log {
          var j :| 0 <= j < i && logs[j] == seen[id];
          assert IdOf(logs[j]) == IdOf(logs[i]) && logs[j] != logs[i];
          return Err(ConflictingLogs);
        }
        assert RawOf(log) in result;
      } else {
        seen := seen[id := log];
        var raw := RawLog(log.blockNumber, log.blockHash, log.tx, log.index, log.address, log.topics, log.data);
        result := result + [raw];
      }
    }
    assert logs[..|logs|] == logs;
    var sorted := SortByPosition(result);
    r := Ok(sorted);
  }

  // ------------------------------------------------------------ header reads

  /** The hash of the end block before the log query, by the best call the provider supports. */
  method SnapshotHash(rpc: Rpc, t: nat, to: nat) returns (r: Option<Hash>)
    requires t > 0
    ensures r == EndHash(rpc, t - 1, to)
  {
    if rpc.kind == TwoCall {
      r := BlockHashByNumber(rpc, t, to);
    } else {
      var c := CanonicalHeaderByNumber(rpc, t, to);
      r := if c.Some? then Some(c.value.hash) else None;
    }
  }

  /** canonicalHeadersByNumberSequential: one call per height, in order. */
  method CanonicalHeadersSequential(rpc: Rpc, t: nat, from: nat, to: nat)
    returns (r: Result<seq<CanonicalBlock>, Error>, t1: nat)
    requires from <= to < MAX_UINT64
    ensures r.Ok? <==> forall n | from <= n <= to :: SequentialAt(rpc, t, from, n).Some?
    ensures r.Ok? ==> t1 == t + (to - from) + 1 && |r.value| == to - from + 1
    ensures t1 >= t
    ensures r.Ok? ==> forall n | from <= n <= to ::
                        var c := SequentialAt(rpc, t, from, n).value;
                        r.value[n - from] == CanonicalBlock(n, c.hash, c.parent)
  {
    var headers: seq<CanonicalBlock> := [];
    var number := from;
    t1 := t;
    while number <= to
      invariant from <= number <= to + 1 && t1 == t + (number - from) && |headers| == number - from
      invariant forall n | from <= n < number :: SequentialAt(rpc, t, from, n).Some?
      invariant forall n | from <= n < number ::
                  var c := SequentialAt(rpc, t, from, n).value;
                  headers[n - from] == CanonicalBlock(n, c.hash, c.parent)
    {
      var reply := rpc.canonical(t1, number);
      assert reply == SequentialAt(rpc, t, from, number);
      t1 := t1 + 1;
      if reply.None? {
        return Err(RpcFailure), t1;
      }
      headers := headers + [CanonicalBlock(number, reply.value.hash, reply.value.parent)];
      number := number + 1;
    }
    r := Ok(headers);
  }

  /** canonicalHeadersByNumber: one batch call, checked, or the sequential fallback. */
  method CanonicalHeadersByNumber(rpc: Rpc, t: nat, from: nat, to: nat)
    returns (r: Result<seq<CanonicalBlock>, Error>, t1: nat)
    requires from <= to < MAX_UINT64
    ensures r.Ok? <==> forall n | from <= n <= to :: BatchedAt(rpc, t, from, to, n).Some?
    ensures r.Ok? ==> |r.value| == to - from + 1
                      && t1 == (if rpc.batch(t, from, to).BatchUnsupported? then t + 2 + (to - from) else t + 1)
    ensures t1 >= t
    ensures r.Ok? ==> forall n | from <= n <= to ::
                        var c := BatchedAt(rpc, t, from, to, n).value;
                        r.value[n - from] == CanonicalBlock(n, c.hash, c.parent)
  {
    var reply := rpc.batch(t, from, to);
    t1 := t + 1;
    ghost var first := BatchedAt(rpc, t, from, to, from);
    match reply {
      case BatchFailed =>
        assert first.None?;
        r := Err(RpcFailure);
      case BatchUnsupported =>
        r, t1 := CanonicalHeadersSequential(rpc, t + 1, from, to);
        if r.Err? {
          var n :| from <= n <= to && SequentialAt(rpc, t + 1, from, n).None?;
          assert BatchedAt(rpc, t, from, to, n).None?;
        }
      case Headers(headers) =>
        assert first.Some? <==> ValidHeaders(headers, from, to);
        if |headers| != to - from + 1 {
          return Err(MissingBlock), t1;
        }
        var seen: set<nat> := {};
        for i := 0 to |headers|
          invariant forall j | 0 <= j < i :: headers[j].number == from + j && headers[j].hash != ZERO_HASH
          invariant forall n | n in seen :: n < from + i
        {
          if headers[i].hash == ZERO_HASH || headers[i].number != from + i || headers[i].number in seen {
            return Err(MissingBlock), t1;
          }
          seen := seen + {headers[i].number};
        }
        assert ValidHeaders(headers, from, to);
        r := Ok(headers);
    }
  }

  /** The two maps the header walk fills hold, for each height, the reply it rests on. */
  ghost predicate MapsHold(rpc: Rpc, t0: nat, from: nat, to: nat, below: nat,
                           hashes: map<nat, Hash>, parents: map<nat, Hash>)
    requires from <= to && below <= to + 1
  {
    && (forall n | from <= n < below :: n in hashes && n in parents)
    && (forall n | from <= n < below ::
          && ReadHash(rpc, t0, from, to, n) == Some(hashes[n])
          && ReadParent(rpc, t0, from, to, n) == Some(parents[n]))
  }

  ghost predicate RepliesPresent(rpc: Rpc, t0: nat, from: nat, to: nat)
    requires from <= to
  {
    && EndReplyPresent(rpc, t0, from, to)
    && (forall n | from <= n <= to ::
          ReadHash(rpc, t0, from, to, n).Some? && ReadParent(rpc, t0, from, to, n).Some?)
  }

  method ReadBatched(rpc: Rpc, t0: nat, from: nat, to: nat, endHash: Hash, endParent: Hash)
    returns (ok: bool, hashes: map<nat, Hash>, parents: map<nat, Hash>, t1: nat)
    requires rpc.kind == BatchCapable && from <= to < MAX_UINT64
    requires EndHash(rpc, t0, to) == Some(endHash) && ParentAt(rpc, t0, to) == Some(endParent)
    ensures ok <==> RepliesPresent(rpc, t0, from, to)
    ensures ok ==> MapsHold(rpc, t0, from, to, to + 1, hashes, parents) && t1 == Finish(rpc, t0, from, to)
    ensures t1 >= t0
  {
    hashes, parents := map[], map[];
    var r;
    r, t1 := CanonicalHeadersByNumber(rpc, t0 + 3, from, to);
    if r.Err? {
      ok := false;
      var n :| from <= n <= to && BatchedAt(rpc, t0 + 3, from, to, n).None?;
      assert n < to ==> ReadHash(rpc, t0, from, to, n).None?;
      return;
    }
    var i := 0;
    while i < |r.value|
      invariant 0 <= i <= |r.value|
      invariant forall n | from <= n < from + i :: n in hashes && n in parents
      invariant forall n | from <= n < from + i ::
                  hashes[n] == r.value[n - from].hash && parents[n] == r.value[n - from].parent
    {
      var n := from + i;
      assert BatchedAt(rpc, t0 + 3, from, to, n).Some? && r.value[n - from] == r.value[i] && r.value[i].number == n;
      hashes := hashes[r.value[i].number := r.value[i].hash];
      parents := parents[r.value[i].number := r.value[i].parent];
      i := i + 1;
    }
    hashes := hashes[to := endHash];
    parents := parents[to := endParent];
    ok := true;
    forall n | from <= n <= to
      ensures n in hashes && n in parents && ReadHash(rpc, t0, from, to, n) == Some(hashes[n])
              && ReadParent(rpc, t0, from, to, n) == Some(parents[n])
    {
      assert BatchedAt(rpc, t0 + 3, from, to, n).Some?;
    }
  }

  method ReadOneByOne(rpc: Rpc, t0: nat, from: nat, to: nat, endHash: Hash, endParent: Hash)
    returns (ok: bool, hashes: map<nat, Hash>, parents: map<nat, Hash>, t1: nat)
    requires rpc.kind != BatchCapable && from <= to < MAX_UINT64
    requires EndHash(rpc, t0, to) == Some(endHash) && ParentAt(rpc, t0, to) == Some(endParent)
    ensures ok <==> RepliesPresent(rpc, t0, from, to)
    ensures ok ==> MapsHold(rpc, t0, from, to, to + 1, hashes, parents) && t1 == Finish(rpc, t0, from, to)
    ensures t1 >= t0
  {
    hashes, parents, t1 := map[], map[], t0 + 3;
    var number := from;
    while number <= to
      invariant from <= number <= to + 1
      invariant t1 == t0 + 3 + (if rpc.kind == TwoCall then 2 else 1) * ((if number <= to then number else to) - from)
      invariant MapsHold(rpc, t0, from, to, number, hashes, parents)
    {
      if number == to {
        hashes, parents := hashes[to := endHash], parents[to := endParent];
      } else {
        var hash, parent := ReadHash(rpc, t0, from, to, number), ReadParent(rpc, t0, from, to, number);
        if rpc.kind == SingleCall {
          var c := CanonicalHeaderByNumber(rpc, t1, number);
          t1 := t1 + 1;
          assert c.None? ==> hash.None?;
          if c.None? {
            return false, hashes, parents, t1;
          }
          hashes, parents := hashes[number := c.value.hash], parents[number := c.value.parent];
        } else {
          var p := HeaderByNumber(rpc, t1, number);
          assert p == parent;
          if p.None? {
            return false, hashes, parents, t1;
          }
          var h := BlockHashByNumber(rpc, t1 + 1, number);
          t1 := t1 + 2;
          assert h == hash;
          if h.None? {
            return false, hashes, parents, t1;
          }
          hashes, parents := hashes[number := h.value], parents[number := p.value];
        }
      }
      number := number + 1;
    }
    ok := true;
  }

  // ------------------------------------------------------------------- fetch

  /** What a fetch returns when it succeeds. */
  ghost predicate IsBatch(rpc: Rpc, t0: nat, from: nat, to: nat, b: Batch)
    requires from <= to
  {
    && rpc.logs(t0 + 2, from, to).Some? && HeadersRead(rpc, t0, from, to)
    && b.blocks == BlocksRead(rpc, t0, from, to)
    && b.checkpoint == Checkpoint(to, b.blocks[to - from].hash)
    && IsDeduplicated(rpc.logs(t0 + 2, from, to).value, b.logs)
  }

  /** Every height has a header and a nonempty hash. */
  method AllPresent(from: nat, to: nat, hashes: map<nat, Hash>, parents: map<nat, Hash>) returns (ok: bool)
    requires from <= to < MAX_UINT64
    ensures ok <==> forall n | from <= n <= to :: n in parents && n in hashes && hashes[n] != ZERO_HASH
  {
    var number := from;
    while number <= to
      invariant from <= number <= to + 1
      invariant forall n | from <= n < number :: n in parents && n in hashes && hashes[n] != ZERO_HASH
    {
      if number !in parents || number !in hashes || hashes[number] == ZERO_HASH {
        return false;
      }
      number := number + 1;
    }
    ok := true;
  }

  /** The blocks the two maps hold. */
  function BlocksOf(from: nat, to: nat, hashes: map<nat, Hash>, parents: map<nat, Hash>): seq<CanonicalBlock>
    requires from <= to && forall n | from <= n <= to :: n in hashes && n in parents
  {
    seq(to - from + 1, i requires 0 <= i < to - from + 1 =>
      CanonicalBlock(from + i, hashes[from + i], parents[from + i]))
  }

  method LinkBlocks(from: nat, to: nat, hashes: map<nat, Hash>, parents: map<nat, Hash>, expected: Option<Hash>)
    returns (r: Result<seq<CanonicalBlock>, Error>)
    requires from <= to < MAX_UINT64 && forall n | from <= n <= to :: n in hashes && n in parents
    ensures r.Ok? <==> LinksUp(BlocksOf(from, to, hashes, parents), from, expected)
    ensures r.Ok? ==> r.value == BlocksOf(from, to, hashes, parents)
  {
    ghost var run := BlocksOf(from, to, hashes, parents);
    if expected.Some? && from > 0 && parents[from] != expected.value {
      assert run[0].parent == parents[from];
      return Err(NotDescending);
    }
    var blocks: seq<CanonicalBlock> := [];
    var number := from;
    while true
      invariant from <= number <= to && blocks == run[..number - from]
      invariant forall i, j | 0 <= i < j < |blocks| && j == i + 1 :: blocks[j].parent == blocks[i].hash
      decreases (to - number)
    {
      assert run[number - from] == CanonicalBlock(number, hashes[number], parents[number]);
      if number > from && parents[number] != hashes[number - 1] {
        assert run[number - from - 1].hash == hashes[number - 1];
        return Err(NotDescending);
      }
      blocks := blocks + [CanonicalBlock(number, hashes[number], parents[number])];
      if number == to {
        break;
      }
      number := number + 1;
    }
    assert blocks == run;
    r := Ok(blocks);
  }

  /** The maps hold exactly the blocks the replies describe. */
  lemma MapsDescribeReplies(rpc: Rpc, t0: nat, from: nat, to: nat, hashes: map<nat, Hash>, parents: map<nat, Hash>)
    requires from <= to && EndReplyPresent(rpc, t0, from, to)
    requires MapsHold(rpc, t0, from, to, to + 1, hashes, parents)
    ensures HeadersRead(rpc, t0, from, to) <==> forall n | from <= n <= to :: hashes[n] != ZERO_HASH
    ensures HeadersRead(rpc, t0, from, to) ==> BlocksRead(rpc, t0, from, to) == BlocksOf(from, to, hashes, parents)
  {
    if HeadersRead(rpc, t0, from, to) {
      var read, held := BlocksRead(rpc, t0, from, to), BlocksOf(from, to, hashes, parents);
      forall i | 0 <= i < |read| ensures read[i] == held[i] {
        var n := from + i;
        assert ReadHash(rpc, t0, from, to, n) == Some(hashes[n]);
        assert ReadParent(rpc, t0, from, to, n) == Some(parents[n]);
        assert read[i] == BlockAt(rpc, t0, from, to, n);
      }
    }
  }

  /** matchesFilter */
  method MatchFilter(log: Log, f: Filter) returns (ok: bool)
    ensures ok <==> MatchesFilter(log, f)
  {
    if |f.addresses| > 0 && log.address !in f.addresses {
      return false;
    }
    for p := 0 to |f.topics|
      invariant forall q | 0 <= q < p && |f.topics[q]| > 0 :: q < |log.topics| && log.topics[q] in f.topics[q]
    {
      if |f.topics[p]| > 0 && (p >= |log.topics| || log.topics[p] !in f.topics[p]) {
        return false;
      }
    }
    ok := true;
  }

  /** No removed log, none outside the range, none outside the filter. */
  method CheckLogs(logs: seq<Log>, f: Filter, from: nat, to: nat) returns (r: Option<Error>)
    ensures r.None? <==> ValidLogs(logs, f, from, to)
  {
    for i := 0 to |logs|
      invariant ValidLogs(logs[..i], f, from, to)
    {
      if logs[i].removed || logs[i].blockNumber < from || logs[i].blockNumber > to {
        return Some(InvalidLog);
      }
      var wanted := MatchFilter(logs[i], f);
      if !wanted {
        return Some(OutsideFilter);
      }
      assert logs[..i + 1] == logs[..i] + [logs[i]];
    }
    assert logs[..|logs|] == logs;
    r := None;
  }

  method CheckLogHashes(logs: seq<Log>, blocks: seq<CanonicalBlock>, from: nat) returns (ok: bool)
    requires forall log | log in logs :: from <= log.blockNumber < from + |blocks|
    ensures ok <==> LogsInBlocks(blocks, from, logs)
  {
    for i := 0 to |logs|
      invariant LogsInBlocks(blocks, from, logs[..i])
    {
      if logs[i].blockHash != blocks[logs[i].blockNumber - from].hash {
        return false;
      }
      assert logs[..i + 1] == logs[..i] + [logs[i]];
    }
    assert logs[..|logs|] == logs;
    ok := true;
  }

  /** The header walk, by whichever calls the provider supports. */
  method ReadBlocks(rpc: Rpc, t0: nat, from: nat, to: nat, endHash: Hash, endParent: Hash, expected: Option<Hash>)
    returns (r: Result<seq<CanonicalBlock>, Error>, t1: nat)
    requires from <= to < MAX_UINT64
    requires EndHash(rpc, t0, to) == Some(endHash) && ParentAt(rpc, t0, to) == Some(endParent)
    ensures r.Ok? <==> HeadersRead(rpc, t0, from, to) && LinksUp(BlocksRead(rpc, t0, from, to), from, expected)
    ensures r.Ok? ==> r.value == BlocksRead(rpc, t0, from, to) && t1 == Finish(rpc, t0, from, to)
    ensures t1 >= t0
  {
    var ok, hashes, parents;
    if rpc.kind == BatchCapable {
      ok, hashes, parents, t1 := ReadBatched(rpc, t0, from, to, endHash, endParent);
    } else {
      ok, hashes, parents, t1 := ReadOneByOne(rpc, t0, from, to, endHash, endParent);
    }
    if !ok {
      return Err(RpcFailure), t1;
    }
    MapsDescribeReplies(rpc, t0, from, to, hashes, parents);
    var present := AllPresent(from, to, hashes, parents);
    if !present {
      return Err(MissingBlock), t1;
    }
    r := LinkBlocks(from, to, hashes, parents, expected);
  }

  lemma EndReplyIsNeeded(rpc: Rpc, t0: nat, from: nat, to: nat)
    requires from <= to && HeadersRead(rpc, t0, from, to)
    ensures ParentAt(rpc, t0, to).Some? && EndHash(rpc, t0, to).Some?
  {
    assert ReadHash(rpc, t0, from, to, to).Some?;
  }

  /**
   A fetch succeeds exactly when the replies pass every check, and then returns
   the run of blocks and the deduplicated logs they describe.
   */
  method FetchVerifiedBatch(rpc: Rpc, f: Filter, t0: nat, from: nat, to: nat, expected: Option<Hash>)
    returns (r: Result<Batch, Error>, t1: nat)
    requires from <= to < MAX_UINT64
    ensures r.Ok? <==> Accepts(rpc, f, t0, from, to, expected)
    ensures r.Ok? ==> IsBatch(rpc, t0, from, to, r.value) && t1 == Finish(rpc, t0, from, to)
    ensures t1 >= t0
  {
    assert HeadersRead(rpc, t0, from, to) ==> ParentAt(rpc, t0, to).Some? && EndHash(rpc, t0, to).Some? by {
      if HeadersRead(rpc, t0, from, to) {
        EndReplyIsNeeded(rpc, t0, from, to);
      }
    }
    var endParent := HeaderByNumber(rpc, t0, to);
    if endParent.None? {
      return Err(RpcFailure), t0 + 1;
    }
    var endHash := SnapshotHash(rpc, t0 + 1, to);
    if endHash.None? {
      return Err(RpcFailure), t0 + 2;
    }
    var reply := rpc.logs(t0 + 2, from, to);
    if reply.None? {
      return Err(RpcFailure), t0 + 3;
    }
    var invalid := CheckLogs(reply.value, f, from, to);
    if invalid.Some? {
      return Err(invalid.value), t0 + 3;
    }
    var blocks;
    blocks, t1 := ReadBlocks(rpc, t0, from, to, endHash.value, endParent.value, expected);
    if blocks.Err? {
      return Err(blocks.error), t1;
    }
    var inBlocks := CheckLogHashes(reply.value, blocks.value, from);
    if !inBlocks {
      return Err(HashChanged), t1;
    }
    var raw := Deduplicate(reply.value);
    if raw.Err? {
      return Err(ConflictingLogs), t1;
    }
    r := Ok(Batch(raw.value, blocks.value, Checkpoint(to, blocks.value[to - from].hash)));
  }
}
