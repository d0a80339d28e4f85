/**
 Whole runs of the outbox: any number of workers, crashes, expired leases,
 stale acknowledgements, requeues, inserts and cascading deletes, interleaved.
 */
module OutboxRuns {
  import opened Common
  import opened Records
  import opened Outbox

  /** What a worker keeps of a claimed item, by its lease token. */
  datatype Item = Item(key: Key, attempts: nat)

  /** `held` never forgets: a crashed or slow worker may still act on an old item. */
  datatype State = State(table: Table, held: map<Token, Item>)

  const EMPTY: State := State(map[], map[])

  datatype Worker = Worker(lease: nat, maxAttempts: nat)

  predicate ValidWorker(w: Worker) {
    w.lease > 0 && w.maxAttempts > 0
  }

  datatype Step =
    | Add(key: Key, authentication: nat, nextAttempt: int)
    | Drop(gone: set<EventId>)
    | Claim(key: Key, token: Token, now: int)
    | Acknowledge(token: Token, at: int, code: nat)
    | Fail(token: Token, next: int, message: nat, code: nat)
    | Revive(key: Key, now: int, audited: bool)

  /** A claim takes a due row under a token never drawn before; a worker acts only on items it was given. */
  predicate Enabled(s: State, step: Step) {
    match step
    case Claim(k, token, now) => k in s.table && Due(s.table[k], now) && token != NO_TOKEN && token !in s.held
    case Acknowledge(token, _, _) => token in s.held
    case Fail(token, _, _, _) => token in s.held
    case _ => true
  }

  /** The store call that `Worker.fail` makes: dead-letter at the attempt limit, retry below it. */
  function FailureOf(w: Worker, item: Item, next: int, message: nat, code: nat): Resolution {
    if item.attempts >= w.maxAttempts then GiveUp(message, code) else Retry(next, message, code)
  }

  function Apply(w: Worker, s: State, step: Step): State
    requires Enabled(s, step)
  {
    match step
    case Add(k, authentication, nextAttempt) =>
      s.(table := Insert(s.table, k, NewRow(authentication, nextAttempt)))
    case Drop(gone) =>
      s.(table := Cascade(s.table, gone))
    case Claim(k, token, now) =>
      var t := ClaimOne(s.table, k, now, w.lease, token);
      State(t, s.held[token := Item(k, t[k].attempts)])
    case Acknowledge(token, at, code) =>
      s.(table := Resolve(s.table, s.held[token].key, token, Success(at, code)))
    case Fail(token, next, message, code) =>
      var item := s.held[token];
      s.(table := Resolve(s.table, item.key, token, FailureOf(w, item, next, message, code)))
    case Revive(k, now, audited) =>
      s.(table := Requeue(s.table, k, now, audited))
  }

  predicate Run(w: Worker, s: State, steps: seq<Step>)
    decreases |steps|
  {
    steps == [] || (Enabled(s, steps[0]) && Run(w, Apply(w, s, steps[0]), steps[1..]))
  }

  function After(w: Worker, s: State, steps: seq<Step>): State
    requires Run(w, s, steps)
    decreases |steps|
  {
    if steps == [] then s else After(w, Apply(w, s, steps[0]), steps[1..])
  }

  // ------------------------------------------------------------- invariant

  /** A lease is remembered with the attempt count it was issued at; an unleased pending row has attempts left. */
  predicate RowOk(w: Worker, held: map<Token, Item>, k: Key, row: Row) {
    && row.attempts <= row.total
    && (row.token != NO_TOKEN ==>
          row.status == Pending && row.token in held && held[row.token] == Item(k, row.attempts) && row.attempts >= 1)
    && (row.token == NO_TOKEN && row.status == Pending ==> row.attempts < w.maxAttempts)
    && (row.status == Delivered <==> row.deliveredAt.Some?)
  }

  ghost predicate Inv(w: Worker, s: State) {
    && NO_TOKEN !in s.held
    && (forall k | k in s.table :: RowOk(w, s.held, k, s.table[k]))
  }

  lemma StepKeepsInv(w: Worker, s: State, step: Step)
    requires ValidWorker(w) && Inv(w, s) && Enabled(s, step)
    ensures Inv(w, Apply(w, s, step))
  {
    var r := Apply(w, s, step);
    forall k | k in r.table ensures RowOk(w, r.held, k, r.table[k]) {
      if k in s.table { assert RowOk(w, s.held, k, s.table[k]); }
    }
  }

  /**
   In every run, an unleased pending row still has attempts left and a leased row carries the
   attempt count its holder was given.
   */
  lemma {:induction false} RunKeepsInv(w: Worker, s: State, steps: seq<Step>)
    requires ValidWorker(w) && Inv(w, s) && Run(w, s, steps)
    ensures Inv(w, After(w, s, steps))
    decreases |steps|
  {
    if steps != [] {
      StepKeepsInv(w, s, steps[0]);
      RunKeepsInv(w, Apply(w, s, steps[0]), steps[1..]);
    }
  }

  // --------------------------------------------------------------- fencing

  /** The token whose lease this step ends, if it ends one. */
  function Resolves(s: State, step: Step): Option<Token> {
    match step
    case Acknowledge(token, _, _) =>
      if token in s.held && Holds(s.table, s.held[token].key, token) then Some(token) else None
    case Fail(token, _, _, _) =>
      if token in s.held && Holds(s.table, s.held[token].key, token) then Some(token) else None
    case _ => None
  }

  /** How many steps of the run change a row on the authority of `token`. */
  function Resolutions(w: Worker, s: State, steps: seq<Step>, token: Token): nat
    requires Run(w, s, steps)
    decreases |steps|
  {
    if steps == [] then 0
    else (if Resolves(s, steps[0]) == Some(token) then 1 else 0)
         + Resolutions(w, Apply(w, s, steps[0]), steps[1..], token)
  }

  /** A token that was drawn and no longer leases its row: resolved, superseded, or its row deleted. */
  predicate Spent(s: State, token: Token) {
    token in s.held && !Holds(s.table, s.held[token].key, token)
  }

  lemma SpentStaysSpent(w: Worker, s: State, step: Step, token: Token)
    requires ValidWorker(w) && Inv(w, s) && Enabled(s, step) && Spent(s, token)
    ensures Spent(Apply(w, s, step), token)
  {
    var k := s.held[token].key;
    if k in s.table { assert RowOk(w, s.held, k, s.table[k]); }
  }

  lemma ResolvingSpends(w: Worker, s: State, step: Step, token: Token)
    requires ValidWorker(w) && Inv(w, s) && Enabled(s, step) && Resolves(s, step) == Some(token)
    ensures Spent(Apply(w, s, step), token)
  {
  }

  /** A spent token changes nothing, now or at any later point of any run. */
  lemma {:induction false} SpentTokensAreFenced(w: Worker, s: State, steps: seq<Step>, token: Token)
    requires ValidWorker(w) && Inv(w, s) && Run(w, s, steps) && Spent(s, token)
    ensures Resolutions(w, s, steps, token) == 0
    ensures Spent(After(w, s, steps), token)
    ensures forall at, code :: Apply(w, After(w, s, steps), Acknowledge(token, at, code)) == After(w, s, steps)
    ensures forall next, message, code ::
              Apply(w, After(w, s, steps), Fail(token, next, message, code)) == After(w, s, steps)
    decreases |steps|
  {
    if steps != [] {
      StepKeepsInv(w, s, steps[0]);
      SpentStaysSpent(w, s, steps[0], token);
      SpentTokensAreFenced(w, Apply(w, s, steps[0]), steps[1..], token);
    }
  }

  /** Every token resolves at most one delivery, in every run. */
  lemma {:induction false} EachTokenResolvesOnce(w: Worker, s: State, steps: seq<Step>, token: Token)
    requires ValidWorker(w) && Inv(w, s) && Run(w, s, steps)
    ensures Resolutions(w, s, steps, token) <= 1
    decreases |steps|
  {
    if steps != [] {
      StepKeepsInv(w, s, steps[0]);
      var next := Apply(w, s, steps[0]);
      if Resolves(s, steps[0]) == Some(token) {
        ResolvingSpends(w, s, steps[0], token);
        SpentTokensAreFenced(w, next, steps[1..], token);
      } else {
        EachTokenResolvesOnce(w, next, steps[1..], token);
      }
    }
  }

  /** Taking over an expired lease spends the token of the holder it supersedes. */
  lemma TakeoverSupersedes(w: Worker, s: State, step: Step, token: Token)
    requires ValidWorker(w) && Inv(w, s) && step.Claim? && Enabled(s, step)
    requires token in s.held && s.held[token].key == step.key
    ensures Spent(Apply(w, s, step), token)
  {
    var k := step.key;
    assert RowOk(w, s.held, k, s.table[k]);
  }

  // --------------------------------------------------- separation of claims

  /** The step neither leases nor resolves nor removes the row of `k`. */
  predicate LeavesAlone(s: State, step: Step, k: Key) {
    && !(step.Claim? && step.key == k)
    && !(step.Drop? && k.event in step.gone)
    && (Resolves(s, step).Some? ==> s.held[Resolves(s, step).value].key != k)
  }

  predicate RunLeavesAlone(w: Worker, s: State, steps: seq<Step>, k: Key)
    requires Run(w, s, steps)
    decreases |steps|
  {
    steps == [] || (LeavesAlone(s, steps[0], k) && RunLeavesAlone(w, Apply(w, s, steps[0]), steps[1..], k))
  }

  lemma {:induction false} UntouchedRowStands(w: Worker, s: State, steps: seq<Step>, k: Key)
    requires ValidWorker(w) && Inv(w, s) && Run(w, s, steps) && RunLeavesAlone(w, s, steps, k)
    requires k in s.table && s.table[k].status == Pending
    ensures k in After(w, s, steps).table && After(w, s, steps).table[k] == s.table[k]
    decreases |steps|
  {
    if steps != [] {
      StepKeepsInv(w, s, steps[0]);
      UntouchedRowStands(w, Apply(w, s, steps[0]), steps[1..], k);
    }
  }

  /**
   Two successive claims of one row that no resolution or deletion separates are at least the
   lease duration apart, whatever the clocks of the workers do in between.
   */
  lemma ClaimsAreALeaseApart(w: Worker, s: State, first: Step, between: seq<Step>, second: Step)
    requires ValidWorker(w) && Inv(w, s)
    requires first.Claim? && second.Claim? && first.key == second.key
    requires Enabled(s, first) && Run(w, Apply(w, s, first), between)
    requires RunLeavesAlone(w, Apply(w, s, first), between, first.key)
    requires Enabled(After(w, Apply(w, s, first), between), second)
    ensures second.now >= first.now + w.lease
  {
    StepKeepsInv(w, s, first);
    UntouchedRowStands(w, Apply(w, s, first), between, first.key);
  }

  // ------------------------------------------------------------ accounting

  /** Attempts that requeues took off the counter since the row was last inserted. */
  function Erased(w: Worker, s: State, steps: seq<Step>, k: Key): int
    requires Run(w, s, steps)
    decreases |steps|
  {
    if steps == [] then (if k in s.table then s.table[k].total - s.table[k].attempts else 0)
    else
      var n := |steps| - 1;
      RunPrefix(w, s, steps, n);
      var before := After(w, s, steps[..n]);
      var sofar := Erased(w, s, steps[..n], k);
      match steps[n]
      case Add(key, _, _) => if key == k && k !in before.table then 0 else sofar
      case Revive(key, _, _) =>
        if key == k && k in before.table && before.table[k].status == Status.Dead
        then sofar + before.table[k].attempts else sofar
      case _ => sofar
  }

  lemma {:induction false} RunPrefix(w: Worker, s: State, steps: seq<Step>, n: nat)
    requires Run(w, s, steps) && n < |steps|
    ensures Run(w, s, steps[..n]) && Enabled(After(w, s, steps[..n]), steps[n])
    ensures Run(w, s, steps[..n + 1])
    ensures After(w, s, steps[..n + 1]) == Apply(w, After(w, s, steps[..n]), steps[n])
    decreases n
  {
    if n == 0 {
      assert steps[..1][1..] == [];
    } else {
      var next := Apply(w, s, steps[0]);
      RunPrefix(w, next, steps[1..], n - 1);
      assert steps[..n][1..] == steps[1..][..n - 1];
      assert steps[..n + 1][1..] == steps[1..][..n];
    }
  }

  /** In every run the lifetime counter is the current counter plus everything requeues erased. */
  lemma {:induction false} AttemptsAreConserved(w: Worker, s: State, steps: seq<Step>, k: Key)
    requires ValidWorker(w) && Inv(w, s) && Run(w, s, steps) && k in After(w, s, steps).table
    ensures After(w, s, steps).table[k].total == After(w, s, steps).table[k].attempts + Erased(w, s, steps, k)
    decreases |steps|
  {
    if steps != [] {
      var n := |steps| - 1;
      RunPrefix(w, s, steps, n);
      assert steps[..n + 1] == steps;
      var before := After(w, s, steps[..n]);
      if k in before.table {
        AttemptsAreConserved(w, s, steps[..n], k);
      }
    }
  }

  /** Claims of `k` since its row was last inserted or requeued. */
  function ClaimsSince(w: Worker, s: State, steps: seq<Step>, k: Key): nat
    requires Run(w, s, steps)
    decreases |steps|
  {
    if steps == [] then (if k in s.table then s.table[k].attempts else 0)
    else
      var n := |steps| - 1;
      RunPrefix(w, s, steps, n);
      var before := After(w, s, steps[..n]);
      var sofar := ClaimsSince(w, s, steps[..n], k);
      match steps[n]
      case Add(key, _, _) => if key == k && k !in before.table then 0 else sofar
      case Revive(key, _, _) =>
        if key == k && k in before.table && before.table[k].status == Status.Dead then 0 else sofar
      case Claim(key, _, _) => if key == k then sofar + 1 else sofar
      case _ => sofar
  }

  lemma {:induction false} AttemptsCountClaims(w: Worker, s: State, steps: seq<Step>, k: Key)
    requires ValidWorker(w) && Inv(w, s) && Run(w, s, steps) && k in After(w, s, steps).table
    ensures After(w, s, steps).table[k].attempts == ClaimsSince(w, s, steps, k)
    decreases |steps|
  {
    if steps != [] {
      var n := |steps| - 1;
      RunPrefix(w, s, steps, n);
      assert steps[..n + 1] == steps;
      if k in After(w, s, steps[..n]).table {
        AttemptsCountClaims(w, s, steps[..n], k);
      }
    }
  }

  /** Every claim of `k` in the run finds the row unleased: the previous claim was resolved. */
  predicate ClaimsAreResolved(w: Worker, s: State, steps: seq<Step>, k: Key)
    requires Run(w, s, steps)
    decreases |steps|
  {
    steps == [] || (
      && (steps[0].Claim? && steps[0].key == k ==> s.table[k].token == NO_TOKEN)
      && ClaimsAreResolved(w, Apply(w, s, steps[0]), steps[1..], k))
  }

  ghost predicate WithinLimit(w: Worker, s: State, k: Key) {
    k in s.table ==> s.table[k].attempts <= w.maxAttempts
  }

  lemma {:induction false} ResolvedClaimsStayWithinLimit(w: Worker, s: State, steps: seq<Step>, k: Key)
    requires ValidWorker(w) && Inv(w, s) && Run(w, s, steps)
    requires ClaimsAreResolved(w, s, steps, k) && WithinLimit(w, s, k)
    ensures WithinLimit(w, After(w, s, steps), k)
    decreases |steps|
  {
    if steps != [] {
      StepKeepsInv(w, s, steps[0]);
      if k in s.table { assert RowOk(w, s.held, k, s.table[k]); }
      ResolvedClaimsStayWithinLimit(w, Apply(w, s, steps[0]), steps[1..], k);
    }
  }

  /**
   If every claim of a delivery is resolved before the next, it is claimed at most maxAttempts
   times, and once that many claims are resolved it is delivered or dead.
   */
  lemma EveryDeliverySettles(w: Worker, steps: seq<Step>, k: Key)
    requires ValidWorker(w) && Run(w, EMPTY, steps) && ClaimsAreResolved(w, EMPTY, steps, k)
    requires k in After(w, EMPTY, steps).table
    ensures var row := After(w, EMPTY, steps).table[k];
            && ClaimsSince(w, EMPTY, steps, k) <= w.maxAttempts
            && (ClaimsSince(w, EMPTY, steps, k) == w.maxAttempts && row.token == NO_TOKEN ==> row.status != Pending)
  {
    RunKeepsInv(w, EMPTY, steps);
    AttemptsCountClaims(w, EMPTY, steps, k);
    ResolvedClaimsStayWithinLimit(w, EMPTY, steps, k);
    var s := After(w, EMPTY, steps);
    assert RowOk(w, s.held, k, s.table[k]);
  }

  // ---------------------------------------------------------------- no loss

  predicate NeverDropped(steps: seq<Step>, k: Key) {
    forall i | 0 <= i < |steps| && steps[i].Drop? :: k.event !in steps[i].gone
  }

  /** A delivered row is final: only deleting its event ends it. */
  lemma {:induction false} DeliveredIsFinal(w: Worker, s: State, steps: seq<Step>, k: Key)
    requires ValidWorker(w) && Inv(w, s) && Run(w, s, steps) && NeverDropped(steps, k)
    requires k in s.table && s.table[k].status == Delivered
    ensures k in After(w, s, steps).table && After(w, s, steps).table[k] == s.table[k]
    decreases |steps|
  {
    if steps != [] {
      StepKeepsInv(w, s, steps[0]);
      assert RowOk(w, s.held, k, s.table[k]);
      assert steps[0].Drop? ==> k.event !in steps[0].gone;
      forall i | 0 <= i < |steps[1..]| && steps[1..][i].Drop? ensures k.event !in steps[1..][i].gone {
        assert steps[1..][i] == steps[i + 1];
      }
      DeliveredIsFinal(w, Apply(w, s, steps[0]), steps[1..], k);
    }
  }

  /** No row is lost: what was inserted stays until its event is deleted. */
  lemma {:induction false} RowsAreNotLost(w: Worker, s: State, steps: seq<Step>, k: Key)
    requires Run(w, s, steps) && NeverDropped(steps, k) && k in s.table
    ensures k in After(w, s, steps).table
    decreases |steps|
  {
    if steps != [] {
      assert steps[0].Drop? ==> k.event !in steps[0].gone;
      forall i | 0 <= i < |steps[1..]| && steps[1..][i].Drop? ensures k.event !in steps[1..][i].gone {
        assert steps[1..][i] == steps[i + 1];
      }
      RowsAreNotLost(w, Apply(w, s, steps[0]), steps[1..], k);
    }
  }
}
