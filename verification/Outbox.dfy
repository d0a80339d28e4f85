/** The deliveries table: leases, resolutions and requeues (internal/store/sqlite/store.go). */
module Outbox {
  import opened Common
  import opened Records
  import opened OrderBy

  type Token = nat
  const NO_TOKEN: Token := 0

  datatype Status = Pending | Delivered | Dead

  datatype Row = Row(
    authentication: nat, status: Status, attempts: nat, total: nat, token: Token, nextAttempt: int,
    lastAttemptAt: Option<int>, lastStatus: Option<nat>, lastError: nat, deliveredAt: Option<int>)

  datatype Key = Key(event: EventId, destination: nat)

  type Table = map<Key, Row>

  const NO_ERROR := 0

  function NewRow(authentication: nat, nextAttempt: int): Row {
    Row(authentication, Pending, 0, 0, NO_TOKEN, nextAttempt, None, None, NO_ERROR, None)
  }

  /** ON CONFLICT DO NOTHING */
  function Insert(t: Table, k: Key, row: Row): Table {
    if k in t then t else t[k := row]
  }

  predicate Due(row: Row, now: int) {
    row.status == Pending && row.nextAttempt <= now
  }

  function Leased(row: Row, now: int, lease: nat, token: Token): Row {
    row.(attempts := row.attempts + 1, total := row.total + 1, nextAttempt := now + lease,
         lastAttemptAt := Some(now), token := token)
  }

  /** One guarded UPDATE of a claim transaction. */
  function ClaimOne(t: Table, k: Key, now: int, lease: nat, token: Token): Table {
    if k in t && Due(t[k], now) then t[k := Leased(t[k], now, lease, token)] else t
  }

  /** The guarded UPDATEs of a claim transaction, in order. */
  function ClaimAll(t: Table, keys: seq<Key>, now: int, lease: nat, tokens: seq<Token>): Table
    requires |keys| <= |tokens|
  {
    if keys == [] then t
    else
      var n := |keys| - 1;
      ClaimOne(ClaimAll(t, keys[..n], now, lease, tokens), keys[n], now, lease, tokens[n])
  }

  function SortKeyOf(k: Key, row: Row): SortKey {
    SortKey(row.nextAttempt, k.event.tx, k.event.logIndex, k.destination)
  }

  function KeyOf(s: SortKey): Key {
    Key(EventId(s.tx, s.index), s.destination)
  }

  function DueKeys(t: Table, now: int): set<SortKey> {
    set k | k in t && Due(t[k], now) :: SortKeyOf(k, t[k])
  }

  /** SELECT ... WHERE status = 'pending' AND next_attempt <= now ORDER BY ... LIMIT */
  function SelectDue(t: Table, now: int, limit: nat): seq<Key> {
    var rows := Take(DueKeys(t, now), limit);
    seq(|rows|, i requires 0 <= i < |rows| => KeyOf(rows[i]))
  }

  /** The guard of every resolution: the row is pending under exactly this lease. */
  predicate Holds(t: Table, k: Key, token: Token) {
    token != NO_TOKEN && k in t && t[k].token == token && t[k].status == Pending
  }

  function NullableStatus(code: nat): Option<nat> {
    if 100 <= code <= 599 then Some(code) else None
  }

  datatype Resolution =
    | Success(at: int, code: nat)
    | Retry(next: int, message: nat, code: nat)
    | GiveUp(message: nat, code: nat)

  function ResolvedRow(row: Row, r: Resolution): Row {
    match r
    case Success(at, code) =>
      row.(status := Delivered, deliveredAt := Some(at), lastStatus := NullableStatus(code),
           lastError := NO_ERROR, token := NO_TOKEN)
    case Retry(next, message, code) =>
      row.(nextAttempt := next, lastError := message, lastStatus := NullableStatus(code), token := NO_TOKEN)
    case GiveUp(message, code) =>
      row.(status := Status.Dead, lastError := message, lastStatus := NullableStatus(code), token := NO_TOKEN)
  }

  /** UPDATE ... WHERE lease_token = ? AND status = 'pending' */
  function Resolve(t: Table, k: Key, token: Token, r: Resolution): Table {
    if Holds(t, k, token) then t[k := ResolvedRow(t[k], r)] else t
  }

  /** Only the audited requeue also clears the last status code. */
  function RequeuedRow(row: Row, now: int, audited: bool): Row {
    row.(status := Pending, attempts := 0, token := NO_TOKEN, nextAttempt := now, lastError := NO_ERROR,
         lastStatus := if audited then None else row.lastStatus, deliveredAt := None)
  }

  /** UPDATE ... WHERE status = 'dead' */
  function Requeue(t: Table, k: Key, now: int, audited: bool): Table {
    if k in t && t[k].status == Status.Dead then t[k := RequeuedRow(t[k], now, audited)] else t
  }

  /** ON DELETE CASCADE from the events table. */
  function Cascade(t: Table, gone: set<EventId>): Table {
    map k | k in t && k.event !in gone :: t[k]
  }

  // ---------------------------------------------------------------- the claim

  /** Distinct keys, each of a due row. */
  ghost predicate AllDue(t: Table, keys: seq<Key>, now: int) {
    && (forall i | 0 <= i < |keys| :: keys[i] in t && Due(t[keys[i]], now))
    && (forall i, j | 0 <= i < j < |keys| :: keys[i] != keys[j])
  }

  /** The claim query selects as many distinct due rows as there are, up to the limit. */
  lemma SelectedIsDue(t: Table, now: int, limit: nat)
    ensures AllDue(t, SelectDue(t, now, limit), now)
    ensures |SelectDue(t, now, limit)| <= limit
  {
    var due := DueKeys(t, now);
    var rows := Take(due, limit);
    TakeIsTheQuery(due, limit);
    var keys := SelectDue(t, now, limit);
    forall i | 0 <= i < |keys|
      ensures rows[i] in due && keys[i] in t && Due(t[keys[i]], now) && SortKeyOf(keys[i], t[keys[i]]) == rows[i]
    {
      assert rows[i] in Elements(rows);
    }
    forall i, j | 0 <= i < j < |keys| ensures keys[i] != keys[j] {
      assert rows[i] != rows[j];
      assert SortKeyOf(keys[i], t[keys[i]]) == rows[i] && SortKeyOf(keys[j], t[keys[j]]) == rows[j];
    }
  }

  /** Due earlier, or at the same time and first by transaction, log index and destination. */
  predicate DueEarlier(t: Table, j: Key, k: Key)
    requires j in t && k in t
  {
    || t[j].nextAttempt < t[k].nextAttempt
    || (t[j].nextAttempt == t[k].nextAttempt && (
          || j.event.tx < k.event.tx
          || (j.event.tx == k.event.tx && (
                || j.event.logIndex < k.event.logIndex
                || (j.event.logIndex == k.event.logIndex && j.destination < k.destination)))))
  }

  /** A due row is passed over only when the limit is reached, and only behind rows due earlier. */
  lemma SelectedAreEarliest(t: Table, now: int, limit: nat, k: Key)
    requires k in t && Due(t[k], now) && k !in SelectDue(t, now, limit)
    ensures |SelectDue(t, now, limit)| == limit
    ensures forall j | j in SelectDue(t, now, limit) :: j in t && DueEarlier(t, j, k)
  {
    var due, keys := DueKeys(t, now), SelectDue(t, now, limit);
    var rows, y := Take(due, limit), SortKeyOf(k, t[k]);
    TakenIsSelected(t, now, limit, y);
    TakeIsTheQuery(due, limit);
    TakeAllOrLimit(due, limit);
    assert y in due && y !in rows;
    forall j | j in keys ensures j in t && DueEarlier(t, j, k) {
      var i :| 0 <= i < |keys| && keys[i] == j;
      assert rows[i] in Elements(rows);
      assert Le(rows[i], y) && rows[i] != y;
    }
  }

  /** The rows are selected in the order in which they are due. */
  lemma SelectedInOrder(t: Table, now: int, limit: nat, i: nat, j: nat)
    requires i < j < |SelectDue(t, now, limit)|
    ensures var keys := SelectDue(t, now, limit);
            keys[i] in t && keys[j] in t && DueEarlier(t, keys[i], keys[j])
  {
    var rows := Take(DueKeys(t, now), limit);
    TakeIsTheQuery(DueKeys(t, now), limit);
    assert rows[i] in Elements(rows) && rows[j] in Elements(rows);
  }

  lemma TakenIsSelected(t: Table, now: int, limit: nat, y: SortKey)
    ensures y in Take(DueKeys(t, now), limit) ==> KeyOf(y) in SelectDue(t, now, limit)
  {
    var rows := Take(DueKeys(t, now), limit);
    if y in rows {
      var i :| 0 <= i < |rows| && rows[i] == y;
      assert SelectDue(t, now, limit)[i] == KeyOf(y);
    }
  }

  /** A claim leases exactly its distinct due keys, each once and under its own token; the rest stand. */
  lemma {:induction false} ClaimAllLeases(t: Table, keys: seq<Key>, now: int, lease: nat, tokens: seq<Token>)
    requires |keys| <= |tokens|
    requires AllDue(t, keys, now)
    ensures var r := ClaimAll(t, keys, now, lease, tokens);
            && r.Keys == t.Keys
            && (forall i | 0 <= i < |keys| :: r[keys[i]] == Leased(t[keys[i]], now, lease, tokens[i]))
            && (forall k | k in t && k !in keys :: r[k] == t[k])
    decreases |keys|
  {
    if keys != [] {
      var n := |keys| - 1;
      var before := keys[..n];
      ClaimAllLeases(t, before, now, lease, tokens);
      var mid := ClaimAll(t, before, now, lease, tokens);
      assert keys[n] !in before;
      assert mid[keys[n]] == t[keys[n]];
      var r := ClaimAll(t, keys, now, lease, tokens);
      forall i | 0 <= i < |keys| ensures r[keys[i]] == Leased(t[keys[i]], now, lease, tokens[i]) {
        if i < n { assert before[i] == keys[i]; }
      }
      forall k | k in t && k !in keys ensures r[k] == t[k] {
        assert k !in before;
      }
    }
  }

  /** One iteration of the claim loop: the next selected row is still due, and is leased. */
  lemma ClaimNext(t: Table, keys: seq<Key>, now: int, lease: nat, tokens: seq<Token>, i: nat)
    requires i < |keys| <= |tokens| && AllDue(t, keys, now)
    ensures var mid := ClaimAll(t, keys[..i], now, lease, tokens);
            && keys[i] in mid && Due(mid[keys[i]], now)
            && ClaimAll(t, keys[..i + 1], now, lease, tokens)
               == mid[keys[i] := Leased(mid[keys[i]], now, lease, tokens[i])]
  {
    assert AllDue(t, keys[..i], now);
    ClaimAllLeases(t, keys[..i], now, lease, tokens);
    assert keys[..i + 1][..i] == keys[..i];
    assert keys[i] !in keys[..i];
  }
}
