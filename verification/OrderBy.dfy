/**
 `ORDER BY ... LIMIT` over the two indexed queries of the store. Texts that the
 store only compares are numbers standing for their place in the text order.
 */
module OrderBy {

  /** (next_attempt | observed_at, transaction_hash, log_index, destination) */
  datatype SortKey = SortKey(at: int, tx: nat, index: nat, destination: nat)

  predicate Le(a: SortKey, b: SortKey) {
    if a.at != b.at then a.at < b.at
    else if a.tx != b.tx then a.tx < b.tx
    else if a.index != b.index then a.index < b.index
    else a.destination <= b.destination
  }

  predicate IsMin(s: set<SortKey>, m: SortKey) {
    m in s && forall x {:trigger Le(m, x)} | x in s :: Le(m, x)
  }

  lemma {:induction false} MinExists(s: set<SortKey>)
    requires s != {}
    ensures exists m :: IsMin(s, m)
    decreases |s|
  {
    var x :| x in s;
    var rest := s - {x};
    if rest == {} {
      assert s == {x};
      assert IsMin(s, x);
    } else {
      MinExists(rest);
      var m :| IsMin(rest, m);
      var least := if Le(x, m) then x else m;
      assert IsMin(s, least) by {
        forall y | y in s ensures Le(least, y) {
          if y != x { assert Le(m, y); }
        }
      }
    }
  }

  lemma MinIsUnique(s: set<SortKey>)
    ensures forall a, b | IsMin(s, a) && IsMin(s, b) :: a == b
  {
    forall a, b | IsMin(s, a) && IsMin(s, b) ensures a == b {
      assert Le(a, b) && Le(b, a);
    }
  }

  function Min(s: set<SortKey>): (m: SortKey)
    requires s != {}
    ensures IsMin(s, m)
  {
    MinExists(s);
    MinIsUnique(s);
    var m :| m in s && IsMin(s, m);
    m
  }

  /** The first `limit` members of `s` in order. */
  function Take(s: set<SortKey>, limit: nat): (r: seq<SortKey>)
    decreases limit
  {
    if limit == 0 || s == {} then []
    else var m := Min(s); [m] + Take(s - {m}, limit - 1)
  }

  function Elements(r: seq<SortKey>): set<SortKey> {
    set x | x in r
  }

  lemma ElementsOfCons(m: SortKey, rest: seq<SortKey>)
    ensures Elements([m] + rest) == {m} + Elements(rest)
  {
  }

  lemma {:induction false} TakeCounts(s: set<SortKey>, limit: nat)
    ensures |Take(s, limit)| == (if |s| <= limit then |s| else limit)
    ensures Elements(Take(s, limit)) <= s
    decreases limit
  {
    if limit > 0 && s != {} {
      var m := Min(s);
      TakeCounts(s - {m}, limit - 1);
      ElementsOfCons(m, Take(s - {m}, limit - 1));
    }
  }

  lemma {:induction false} TakeSeparates(s: set<SortKey>, limit: nat, x: SortKey, y: SortKey)
    requires x in Take(s, limit) && y in s && y !in Take(s, limit)
    ensures Le(x, y)
    decreases limit
  {
    var m := Min(s);
    var rest := Take(s - {m}, limit - 1);
    assert Take(s, limit) == [m] + rest;
    if x != m {
      assert x in rest;
      TakeSeparates(s - {m}, limit - 1, x, y);
    }
  }

  lemma {:induction false} TakeAscends(s: set<SortKey>, limit: nat, i: nat, j: nat)
    requires i < j < |Take(s, limit)|
    ensures Le(Take(s, limit)[i], Take(s, limit)[j]) && Take(s, limit)[i] != Take(s, limit)[j]
    decreases limit
  {
    var m := Min(s);
    var rest := Take(s - {m}, limit - 1);
    assert Take(s, limit) == [m] + rest;
    TakeCounts(s - {m}, limit - 1);
    if i == 0 {
      assert rest[j - 1] in Elements(rest);
    } else {
      TakeAscends(s - {m}, limit - 1, i - 1, j - 1);
    }
  }

  /** Take is the query: that many members, ascending and distinct, none left out below one taken. */
  lemma TakeIsTheQuery(s: set<SortKey>, limit: nat)
    ensures var r := Take(s, limit);
            && |r| == (if |s| <= limit then |s| else limit)
            && Elements(r) <= s
            && (forall i, j | 0 <= i < j < |r| :: Le(r[i], r[j]) && r[i] != r[j])
            && (forall x, y | x in r && y in s && y !in r :: Le(x, y))
  {
    var r := Take(s, limit);
    TakeCounts(s, limit);
    forall i, j | 0 <= i < j < |r| ensures Le(r[i], r[j]) && r[i] != r[j] {
      TakeAscends(s, limit, i, j);
    }
    forall x, y | x in r && y in s && y !in r ensures Le(x, y) {
      TakeSeparates(s, limit, x, y);
    }
  }

  /** What the query leaves behind. */
  ghost function Rest(s: set<SortKey>, limit: nat): set<SortKey>
    decreases limit
  {
    if limit == 0 || s == {} then s else Rest(s - {Min(s)}, limit - 1)
  }

  lemma {:induction false} RestIsUntaken(s: set<SortKey>, limit: nat)
    ensures Rest(s, limit) == s - Elements(Take(s, limit))
    decreases limit
  {
    if limit > 0 && s != {} {
      var m := Min(s);
      RestIsUntaken(s - {m}, limit - 1);
      RemoveCons(s, m, Take(s - {m}, limit - 1));
    }
  }

  lemma RemoveCons(s: set<SortKey>, m: SortKey, rest: seq<SortKey>)
    requires m in s
    ensures s - Elements([m] + rest) == (s - {m}) - Elements(rest)
  {
    ElementsOfCons(m, rest);
  }

  lemma {:induction false} RestCounts(s: set<SortKey>, limit: nat)
    ensures |Rest(s, limit)| == |s| - |Take(s, limit)|
    decreases limit
  {
    if limit > 0 && s != {} {
      RestCounts(s - {Min(s)}, limit - 1);
    }
  }

  lemma {:induction false} TakeThenRest(s: set<SortKey>, a: nat, b: nat)
    ensures Take(s, a + b) == Take(s, a) + Take(Rest(s, a), b)
    decreases a
  {
    if a > 0 && s != {} {
      TakeThenRest(s - {Min(s)}, a - 1, b);
    }
  }

  /** The rows taken are distinct, so removing them removes that many. */
  lemma TakeRemoves(s: set<SortKey>, limit: nat)
    ensures |s - Elements(Take(s, limit))| == |s| - |Take(s, limit)|
  {
    RestIsUntaken(s, limit);
    RestCounts(s, limit);
  }

  /** Asking for a + b rows is asking for a, removing them, and asking for b. */
  lemma TakeInTwo(s: set<SortKey>, a: nat, b: nat)
    ensures Take(s, a + b) == Take(s, a) + Take(s - Elements(Take(s, a)), b)
  {
    RestIsUntaken(s, a);
    TakeThenRest(s, a, b);
  }

  /** A limit no smaller than the table takes every row. */
  lemma TakeAll(s: set<SortKey>, limit: nat)
    requires |s| <= limit
    ensures Elements(Take(s, limit)) == s
  {
    TakeCounts(s, limit);
    TakeRemoves(s, limit);
  }

  /** Either everything is taken or the limit is reached. */
  lemma TakeAllOrLimit(s: set<SortKey>, limit: nat)
    ensures Elements(Take(s, limit)) == s || |Take(s, limit)| == limit
  {
    TakeCounts(s, limit);
    if |s| <= limit {
      TakeAll(s, limit);
    }
  }
}
