/** The delivery worker: what it makes of each reply, how long it waits, and one drain of the outbox. */
module Backoff {

  function Doubled(base: nat, n: nat): nat {
    if n == 0 then base else 2 * Doubled(base, n - 1)
  }

  function Lesser(a: int, b: int): int {
    if a <= b then a else b
  }

  /** The exponential delay that both backoff loops stand for. */
  function Ideal(base: nat, maximum: nat, attempts: int): nat {
    Lesser(Doubled(base, Rounds(attempts)), maximum)
  }

  lemma {:induction false} DoubledGrows(base: nat, m: nat, n: nat)
    requires m <= n
    ensures Doubled(base, m) <= Doubled(base, n)
    decreases n
  {
    if m < n {
      DoubledGrows(base, m, n - 1);
    }
  }

  /** What Worker.backoff does with so many doublings left: give up once a doubling would pass the halved bound. */
  function Wait(delay: nat, maximum: nat, rounds: nat): nat
    decreases rounds
  {
    if rounds == 0 then Lesser(delay, maximum)
    else if delay >= maximum / 2 then maximum
    else Wait(2 * delay, maximum, rounds - 1)
  }

  function Rounds(attempts: int): nat {
    if attempts > 1 then attempts - 1 else 0
  }

  /** Some number of doublings, at least one, lands one short of the maximum. */
  predicate FallsOneShort(base: nat, maximum: nat, attempts: int) {
    attempts >= 2 && Doubled(base, attempts - 1) == maximum - 1
  }

  lemma {:induction false} DoubledLater(base: nat, n: nat)
    ensures Doubled(2 * base, n) == Doubled(base, n + 1)
    decreases n
  {
    if n > 0 {
      DoubledLater(base, n - 1);
    }
  }

  /** The doubling loop gives the capped exponential delay, or the maximum when that is one short of it. */
  lemma {:induction false} WaitIs(delay: nat, maximum: nat, rounds: nat)
    requires 0 < delay <= maximum
    ensures Wait(delay, maximum, rounds) ==
            if rounds >= 1 && Doubled(delay, rounds) == maximum - 1 then maximum
            else Lesser(Doubled(delay, rounds), maximum)
    decreases rounds
  {
    if rounds > 0 {
      DoubledLater(delay, rounds - 1);
      if delay >= maximum / 2 {
        DoubledGrows(delay, 1, rounds);
        if rounds > 1 { DoubledGrows(delay, 2, rounds); }
      } else {
        WaitIs(2 * delay, maximum, rounds - 1);
        if rounds == 1 { assert Doubled(delay, 1) == 2 * delay; }
      }
    }
  }

  /** Worker.backoff, whose halved bound rounds down: exact if and only if no doubling falls one short. */
  method WorkerBackoff(base: nat, maximum: nat, attempts: int) returns (delay: nat)
    requires 0 < base <= maximum
    ensures delay == Wait(base, maximum, Rounds(attempts))
    ensures delay == Ideal(base, maximum, attempts) <==> !FallsOneShort(base, maximum, attempts)
    ensures Ideal(base, maximum, attempts) <= delay <= Ideal(base, maximum, attempts) + 1 && delay <= maximum
  {
    WaitIs(base, maximum, Rounds(attempts));
    delay := base;
    for i := 0 to Rounds(attempts)
      invariant Wait(delay, maximum, Rounds(attempts) - i) == Wait(base, maximum, Rounds(attempts))
    {
      if delay >= maximum / 2 {
        return maximum;
      }
      delay := delay * 2;
    }
    delay := Lesser(delay, maximum);
  }

  /** Later attempts never wait less. */
  lemma WaitNeverDecreases(base: nat, maximum: nat, attempts: int)
    requires 0 < base <= maximum
    ensures Wait(base, maximum, Rounds(attempts)) <= Wait(base, maximum, Rounds(attempts + 1)) <= maximum
  {
    WaitIs(base, maximum, Rounds(attempts));
    WaitIs(base, maximum, Rounds(attempts + 1));
    DoubledGrows(base, Rounds(attempts), Rounds(attempts + 1));
  }

  /** Three doublings of one under a maximum of nine: the worker waits nine, not eight. */
  lemma WorkerBackoffOvershoots()
    ensures Wait(1, 9, Rounds(4)) == 9 && Ideal(1, 9, 4) == 8 && FallsOneShort(1, 9, 4)
  {
    assert Doubled(1, 1) == 2 && Doubled(1, 2) == 4 && Doubled(1, 3) == 8;
    assert Wait(4, 9, 1) == 9 && Wait(2, 9, 2) == 9;
  }

  /** boundedBackoff of the runtime manager is exact. */
  method BoundedBackoff(base: int, maximum: int, attempts: int) returns (delay: int)
    ensures base <= 0 || maximum < base ==> delay == maximum
    ensures 0 < base <= maximum ==> delay == Ideal(base, maximum, attempts)
  {
    if base <= 0 || maximum < base {
      return maximum;
    }
    delay := base;
    var i := 1;
    while i < attempts && delay < maximum
      invariant 1 <= i && (i <= attempts || i == 1)
      invariant delay == Doubled(base, i - 1) && delay <= maximum
      decreases attempts - i
    {
      if delay > maximum / 2 {
        DoubledGrows(base, i, attempts - 1);
        return maximum;
      }
      delay := delay * 2;
      i := i + 1;
    }
    if i < attempts {
      DoubledGrows(base, i - 1, attempts - 1);
    }
    if delay > maximum {
      return maximum;
    }
  }
}

module DeliveryWorker {
  import opened Common
  import opened Records
  import opened Outbox
  import opened Storage
  import Backoff
  import Runs = OutboxRuns

  /** `New` refuses anything else. */
  datatype Settings = Settings(
    workers: nat, batchSize: nat, lease: nat, retryBackoff: nat, maxBackoff: nat, maxAttempts: nat)

  predicate Sane(o: Settings) {
    o.workers > 0 && o.batchSize > 0 && o.lease > 0 && 0 < o.retryBackoff <= o.maxBackoff && o.maxAttempts > 0
  }

  /**
   How the webhook request of one item ended, and when. A lost item was not handed out before cancellation,
   or its outcome could not be recorded.
   */
  datatype Reply = Answered(code: nat, at: int) | Unanswered(at: int) | Lost

  const STATUS_ERROR := 1
  const REQUEST_ERROR := 2

  /** The transition the worker asks the store for. */
  function Verdict(o: Settings, attempts: nat, reply: Reply): Resolution
    requires !reply.Lost?
  {
    if reply.Answered? && 200 <= reply.code < 300 then Success(reply.at, reply.code)
    else
      var message := if reply.Answered? then STATUS_ERROR else REQUEST_ERROR;
      var code := if reply.Answered? then reply.code else 0;
      if attempts >= o.maxAttempts then GiveUp(message, code)
      else Retry(reply.at + Backoff.Wait(o.retryBackoff, o.maxBackoff, Backoff.Rounds(attempts)), message, code)
  }

  /** The reply is a success: a status code of the 200s. */
  predicate Succeeded(reply: Reply) {
    reply.Answered? && reply.code / 100 == 2
  }

  /**
   What becomes of a leased row: delivered by a success; otherwise dead once the attempts are used up, and before
   that pending again after the capped exponential delay, which is one longer where a doubling falls one short.
   */
  predicate Handled(o: Settings, attempts: nat, reply: Reply, row: Row, row': Row)
    requires !reply.Lost?
  {
    && row'.token == NO_TOKEN && row'.attempts == row.attempts && row'.total == row.total
    && row'.authentication == row.authentication && row'.lastAttemptAt == row.lastAttemptAt
    && row'.lastStatus == (if reply.Answered? && 100 <= reply.code <= 599 then Some(reply.code) else None)
    && (if Succeeded(reply) then
          row'.status == Delivered && row'.deliveredAt == Some(reply.at) && row'.lastError == NO_ERROR
          && row'.nextAttempt == row.nextAttempt
        else
          && row'.deliveredAt == row.deliveredAt
          && row'.lastError == (if reply.Answered? then STATUS_ERROR else REQUEST_ERROR)
          && if attempts >= o.maxAttempts then row'.status == Dead && row'.nextAttempt == row.nextAttempt
             else row'.status == Pending && row'.nextAttempt == reply.at + RetryDelay(o, attempts))
  }

  function RetryDelay(o: Settings, attempts: nat): nat {
    Backoff.Ideal(o.retryBackoff, o.maxBackoff, attempts)
    + if Backoff.FallsOneShort(o.retryBackoff, o.maxBackoff, attempts) then 1 else 0
  }

  lemma WaitIsRetryDelay(o: Settings, attempts: nat)
    requires Sane(o)
    ensures Backoff.Wait(o.retryBackoff, o.maxBackoff, Backoff.Rounds(attempts)) == RetryDelay(o, attempts)
  {
    Backoff.WaitIs(o.retryBackoff, o.maxBackoff, Backoff.Rounds(attempts));
  }

  lemma VerdictHandles(o: Settings, attempts: nat, reply: Reply, row: Row)
    requires Sane(o) && !reply.Lost? && row.status == Pending
    ensures Handled(o, attempts, reply, row, ResolvedRow(row, Verdict(o, attempts, reply)))
  {
    WaitIsRetryDelay(o, attempts);
  }

  function ClaimLimit(o: Settings): nat {
    if o.batchSize <= o.workers then o.batchSize else o.workers
  }

  function RunsWorker(o: Settings): Runs.Worker {
    Runs.Worker(o.lease, o.maxAttempts)
  }

  /** Tokens drawn for one claim: enough of them, distinct, and never drawn before. */
  ghost predicate FreshTokens(held: map<Token, Runs.Item>, tokens: seq<Token>) {
    && (forall i | 0 <= i < |tokens| :: tokens[i] != NO_TOKEN && tokens[i] !in held)
    && (forall i, j | 0 <= i < j < |tokens| :: tokens[i] != tokens[j])
  }

  class Worker {
    const store: Store
    const options: Settings

    constructor (store: Store, options: Settings)
      ensures this.store == store && this.options == options
    {
      this.store, this.options := store, options;
    }

    /** Turn one reply into one lease-guarded transition. */
    method Deliver(k: Key, attempts: nat, token: Token, reply: Reply) returns (r: Result<(), Error>)
      requires Sane(options) && !reply.Lost?
      modifies store`deliveries
      ensures store.deliveries == Resolve(old(store.deliveries), k, token, Verdict(options, attempts, reply))
      ensures r.Ok? <==> token != NO_TOKEN && k in old(store.deliveries)
                         && old(store.deliveries)[k].token == token && old(store.deliveries)[k].status == Pending
      ensures store.deliveries.Keys == old(store.deliveries).Keys
      ensures forall x | x in store.deliveries && (x != k || r.Err?) :: store.deliveries[x] == old(store.deliveries)[x]
      ensures r.Ok? ==> Handled(options, attempts, reply, old(store.deliveries)[k], store.deliveries[k])
    {
      if k in store.deliveries && store.deliveries[k].status == Pending {
        VerdictHandles(options, attempts, reply, store.deliveries[k]);
      }
      if reply.Answered? && 200 <= reply.code < 300 {
        r := store.Transition(k, token, Success(reply.at, reply.code));
        return;
      }
      var message := if reply.Answered? then STATUS_ERROR else REQUEST_ERROR;
      var code := if reply.Answered? then reply.code else 0;
      if attempts >= options.maxAttempts {
        r := store.Transition(k, token, GiveUp(message, code));
        return;
      }
      var delay := Backoff.WorkerBackoff(options.retryBackoff, options.maxBackoff, attempts);
      r := store.Transition(k, token, Retry(reply.at + delay, message, code));
    }

    /**
     One drain: lease no more items than can start at once, and settle each that is not lost. A lost item
     stays leased, no other row is touched, and the whole drain is a run of the outbox machine.
     */
    method DrainOnce(now: int, tokens: seq<Token>, reply: Key -> Reply, ghost held: map<Token, Runs.Item>)
      returns (keys: seq<Key>, ghost steps: seq<Runs.Step>)
      requires Sane(options) && |tokens| == ClaimLimit(options) && FreshTokens(held, tokens)
      modifies store`deliveries
      ensures keys == SelectDue(old(store.deliveries), now, ClaimLimit(options)) && |keys| <= |tokens|
      ensures |keys| <= options.workers && |keys| <= options.batchSize
      ensures EarliestDue(old(store.deliveries), keys, now,
                          if options.workers <= options.batchSize then options.workers else options.batchSize)
      ensures Outcomes(options, old(store.deliveries), store.deliveries, keys, now, tokens, reply)
      ensures Drained(options, old(store.deliveries), store.deliveries, keys, now, tokens, reply)
      ensures var w, s := RunsWorker(options), Runs.State(old(store.deliveries), held);
              Runs.Run(w, s, steps) && Runs.After(w, s, steps).table == store.deliveries
    {
      ghost var t := store.deliveries;
      ghost var w := RunsWorker(options);
      var claimed := store.ClaimDueDeliveries(now, options.lease, ClaimLimit(options), tokens);
      keys := claimed.value;
      SelectedIsDue(t, now, ClaimLimit(options));
      ClaimAllLeases(t, keys, now, options.lease, tokens);
      steps := ClaimRun(w, t, held, keys, now, tokens);
      for i := 0 to |keys|
        invariant Settled(options, t, store.deliveries, keys, now, tokens, reply, i)
        invariant Reached(w, t, held, steps, store.deliveries, keys, tokens)
      {
        SettleNext(options, t, store.deliveries, keys, now, tokens, reply, i);
        if !reply(keys[i]).Lost? {
          steps := TraceNext(options, t, held, steps, store.deliveries, keys, tokens, reply(keys[i]), i);
          var result := Deliver(keys[i], store.deliveries[keys[i]].attempts, tokens[i], reply(keys[i]));
        }
      }
      DrainedMeans(options, t, store.deliveries, keys, now, tokens, reply);
    }
  }

  /** The trace has led to this table, with every claimed item in some worker's hands. */
  ghost predicate Reached(
      w: Runs.Worker, t: Table, held: map<Token, Runs.Item>, steps: seq<Runs.Step>, now: Table,
      keys: seq<Key>, tokens: seq<Token>)
    requires |keys| <= |tokens| && forall k | k in keys :: k in t
  {
    && Runs.Run(w, Runs.State(t, held), steps)
    && Runs.After(w, Runs.State(t, held), steps).table == now
    && AllHeld(t, Runs.After(w, Runs.State(t, held), steps).held, keys, tokens)
  }

  /** Settling the next claimed key. */
  lemma SettleNext(
      o: Settings, t: Table, t': Table, keys: seq<Key>, now: int, tokens: seq<Token>, reply: Key -> Reply, i: nat)
    requires |keys| <= |tokens| && i < |keys| && forall j | 0 <= j < |tokens| :: tokens[j] != NO_TOKEN
    requires Settled(o, t, t', keys, now, tokens, reply, i)
    ensures keys[i] in t' && Holds(t', keys[i], tokens[i]) && t'[keys[i]].attempts == t[keys[i]].attempts + 1
    ensures var next := if reply(keys[i]).Lost? then t'
                        else Resolve(t', keys[i], tokens[i], Verdict(o, t'[keys[i]].attempts, reply(keys[i])));
            Settled(o, t, next, keys, now, tokens, reply, i + 1)
  {
    assert t'[keys[i]] == Leased(t[keys[i]], now, o.lease, tokens[i]);
  }

  lemma TraceNext(
      o: Settings, t: Table, held: map<Token, Runs.Item>, steps: seq<Runs.Step>, t': Table,
      keys: seq<Key>, tokens: seq<Token>, reply: Reply, i: nat)
    returns (more: seq<Runs.Step>)
    requires |keys| <= |tokens| && i < |keys| && !reply.Lost? && forall k | k in keys :: k in t
    requires Reached(RunsWorker(o), t, held, steps, t', keys, tokens)
    requires keys[i] in t' && t'[keys[i]].attempts == t[keys[i]].attempts + 1
    ensures Reached(RunsWorker(o), t, held, more,
                    Resolve(t', keys[i], tokens[i], Verdict(o, t'[keys[i]].attempts, reply)), keys, tokens)
  {
    var w := RunsWorker(o);
    var s := Runs.After(w, Runs.State(t, held), steps);
    assert s.held[tokens[i]] == Runs.Item(keys[i], t[keys[i]].attempts + 1);
    var step := StepFor(o, s, tokens[i], reply);
    RunSnoc(w, Runs.State(t, held), steps, step);
    more := steps + [step];
  }

  /** The row of a claimed key once its reply is settled. */
  ghost function SettledRow(o: Settings, row: Row, now: int, token: Token, reply: Reply): Row {
    var leased := Leased(row, now, o.lease, token);
    if reply.Lost? then leased else ResolvedRow(leased, Verdict(o, leased.attempts, reply))
  }

  /** The first n claimed keys are settled, the others leased, and every other row as before. */
  ghost predicate Settled(
      o: Settings, t: Table, t': Table, keys: seq<Key>, now: int, tokens: seq<Token>, reply: Key -> Reply, n: nat)
    requires |keys| <= |tokens|
  {
    && t'.Keys == t.Keys && AllDue(t, keys, now)
    && (forall i | 0 <= i < |keys| ::
          t'[keys[i]] == if i < n then SettledRow(o, t[keys[i]], now, tokens[i], reply(keys[i]))
                         else Leased(t[keys[i]], now, o.lease, tokens[i]))
    && (forall k | k in t && k !in keys :: t'[k] == t[k])
  }

  ghost predicate Drained(
      o: Settings, t: Table, t': Table, keys: seq<Key>, now: int, tokens: seq<Token>, reply: Key -> Reply)
    requires |keys| <= |tokens|
  {
    Settled(o, t, t', keys, now, tokens, reply, |keys|)
  }

  /** Every claimed row was leased and then handled, or is still leased when its outcome was lost; the others stand. */
  ghost predicate Outcomes(
      o: Settings, t: Table, t': Table, keys: seq<Key>, now: int, tokens: seq<Token>, reply: Key -> Reply)
    requires |keys| <= |tokens|
  {
    && t'.Keys == t.Keys && (forall k | k in t && k !in keys :: t'[k] == t[k])
    && (forall i | 0 <= i < |keys| ::
          keys[i] in t && Outcome(o, t[keys[i]], t'[keys[i]], now, tokens[i], reply(keys[i])))
  }

  ghost predicate Outcome(o: Settings, row: Row, row': Row, now: int, token: Token, reply: Reply) {
    exists leased ::
      && LeasedRow(row, leased, now, o.lease, token)
      && if reply.Lost? then row' == leased else Handled(o, leased.attempts, reply, leased, row')
  }

  lemma DrainedMeans(
      o: Settings, t: Table, t': Table, keys: seq<Key>, now: int, tokens: seq<Token>, reply: Key -> Reply)
    requires Sane(o) && |keys| <= |tokens| && Drained(o, t, t', keys, now, tokens, reply)
    ensures Outcomes(o, t, t', keys, now, tokens, reply)
  {
    forall i | 0 <= i < |keys|
      ensures keys[i] in t && Outcome(o, t[keys[i]], t'[keys[i]], now, tokens[i], reply(keys[i]))
    {
      var leased := Leased(t[keys[i]], now, o.lease, tokens[i]);
      assert LeasedRow(t[keys[i]], leased, now, o.lease, tokens[i]);
      if !reply(keys[i]).Lost? {
        VerdictHandles(o, leased.attempts, reply(keys[i]), leased);
      }
    }
  }

  ghost predicate AllHeld(t: Table, held: map<Token, Runs.Item>, keys: seq<Key>, tokens: seq<Token>)
    requires |keys| <= |tokens| && forall k | k in keys :: k in t
  {
    forall i | 0 <= i < |keys| :: tokens[i] in held && held[tokens[i]] == Runs.Item(keys[i], t[keys[i]].attempts + 1)
  }

  ghost function StepFor(o: Settings, s: Runs.State, token: Token, reply: Reply): Runs.Step
    requires token in s.held && !reply.Lost?
  {
    match Verdict(o, s.held[token].attempts, reply)
    case Success(at, code) => Runs.Acknowledge(token, at, code)
    case Retry(next, message, code) => Runs.Fail(token, next, message, code)
    case GiveUp(message, code) => Runs.Fail(token, 0, message, code)
  }

  lemma {:induction false} RunSnoc(w: Runs.Worker, s: Runs.State, steps: seq<Runs.Step>, step: Runs.Step)
    requires Runs.Run(w, s, steps) && Runs.Enabled(Runs.After(w, s, steps), step)
    ensures Runs.Run(w, s, steps + [step])
    ensures Runs.After(w, s, steps + [step]) == Runs.Apply(w, Runs.After(w, s, steps), step)
    decreases |steps|
  {
    if steps == [] {
      assert steps + [step] == [step] && [step][1..] == [];
    } else {
      RunSnoc(w, Runs.Apply(w, s, steps[0]), steps[1..], step);
      assert (steps + [step])[1..] == steps[1..] + [step];
    }
  }

  /** The batch claim is a run of single claims. */
  lemma {:induction false} ClaimRun(
      w: Runs.Worker, t: Table, held: map<Token, Runs.Item>, keys: seq<Key>, now: int, tokens: seq<Token>)
    returns (steps: seq<Runs.Step>)
    requires |keys| <= |tokens| && FreshTokens(held, tokens) && AllDue(t, keys, now)
    ensures Runs.Run(w, Runs.State(t, held), steps)
    ensures var s := Runs.After(w, Runs.State(t, held), steps);
            && s.table == ClaimAll(t, keys, now, w.lease, tokens)
            && AllHeld(t, s.held, keys, tokens)
            && forall i | |keys| <= i < |tokens| :: tokens[i] !in s.held
    decreases |keys|
  {
    steps := [];
    if keys != [] {
      var n := |keys| - 1;
      steps := ClaimRun(w, t, held, keys[..n], now, tokens);
      ClaimNext(t, keys, now, w.lease, tokens, n);
      assert keys[..n + 1] == keys;
      var step := Runs.Claim(keys[n], tokens[n], now);
      var s := Runs.After(w, Runs.State(t, held), steps);
      assert s.table[keys[n]] == t[keys[n]] by {
        ClaimAllLeases(t, keys[..n], now, w.lease, tokens);
        assert keys[n] !in keys[..n];
      }
      RunSnoc(w, Runs.State(t, held), steps, step);
      steps := steps + [step];
    }
  }
}
