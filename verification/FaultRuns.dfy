/** A message driven by one worker against a publisher that fails its first N calls. */
module FaultRuns {
  import opened Text
  import opened Ordering
  import opened Signals
  import opened Domain
  import opened Outbox
  import opened Invariants
  import opened Preservation
  import opened EffectivelyOnce
  import opened Publishers
  import opened Batch
  import opened BatchLaws

  // ----------------------------------------------------------------- backoff

  /** The sum of min(delay * 2^i, most) over the first k retries. */
  function SumDelays(delay: nat, most: nat, k: nat): nat
    decreases k
  {
    if k == 0 then 0 else (if delay < most then delay else most) + SumDelays(2 * delay, most, k - 1)
  }

  /** How many doublings it takes to reach the cap. */
  function Knee(delay: nat, most: nat): nat
    requires delay >= 1
    decreases if delay < most then most - delay else 0
  {
    if delay >= most then 0 else 1 + Knee(2 * delay, most)
  }

  function BackoffClosedForm(delay: nat, most: nat, k: nat): int
    requires delay >= 1
  {
    var knee := Knee(delay, most);
    if k <= knee then delay * (Pow2(k) - 1) else delay * (Pow2(knee) - 1) + most * (k - knee)
  }

  lemma {:induction false} SumDelaysClosed(delay: nat, most: nat, k: nat)
    requires delay >= 1
    ensures SumDelays(delay, most, k) == BackoffClosedForm(delay, most, k)
    decreases k
  {
    if k > 0 {
      SumDelaysClosed(2 * delay, most, k - 1);
      if delay < most {
        var knee := Knee(2 * delay, most);
        Doubling(delay, k);
        Doubling(delay, knee + 1);
      } else {
        Capped(2 * delay, most, k - 1);
      }
    }
  }

  lemma Doubling(delay: nat, k: nat)
    requires k > 0
    ensures delay + 2 * delay * (Pow2(k - 1) - 1) == delay * (Pow2(k) - 1)
  {
    var p := Pow2(k - 1);
    assert Pow2(k) == 2 * p;
    assert 2 * delay * (p - 1) == delay * (2 * p) - 2 * delay;
    assert delay * (2 * p - 1) == delay * (2 * p) - delay;
  }

  lemma Capped(delay: nat, most: nat, k: nat)
    requires delay >= 1 && delay >= most
    ensures BackoffClosedForm(delay, most, k) == most * k
  {
    assert Knee(delay, most) == 0;
    assert delay * (Pow2(0) - 1) == 0;
  }

  /** One more retry adds its delay. */
  lemma {:induction false} SumDelaysMore(delay: nat, most: nat, k: nat)
    ensures SumDelays(delay, most, k + 1)
            == SumDelays(delay, most, k) + (if delay * Pow2(k) < most then delay * Pow2(k) else most)
    decreases k
  {
    if k > 0 { SumDelaysMore(2 * delay, most, k - 1); }
    Doubled(delay, k);
    hide Pow2;
  }

  lemma Doubled(delay: nat, k: nat)
    ensures k == 0 ==> delay * Pow2(k) == delay
    ensures k > 0 ==> 2 * delay * Pow2(k - 1) == delay * Pow2(k)
  {
    if k > 0 {
      var p := Pow2(k - 1);
      assert Pow2(k) == 2 * p;
      assert 2 * delay * p == delay * (2 * p);
    }
  }

  /** The delays, in seconds, after the first k failures. */
  function Scheduled(cfg: WorkerConfig, k: nat): nat { SumDelays(cfg.baseRetry, cfg.maxRetry, k) }

  lemma ScheduledMore(cfg: WorkerConfig, k: nat)
    ensures Scheduled(cfg, k + 1) == Scheduled(cfg, k) + RetryDelay(cfg, k + 1)
  {
    SumDelaysMore(cfg.baseRetry, cfg.maxRetry, k);
    hide SumDelays;
  }

  // -------------------------------------------------------------------- runs

  /** A worker passes over the outbox a number of times; a pass may find nothing due. */
  function Drive(h: Hashes, cfg: WorkerConfig, env: Env, p: Progress, passes: nat): Progress
    decreases passes
  {
    hide Round;
    if passes == 0 then p else Drive(h, cfg, env, Round(h, cfg, env, p).0, passes - 1)
  }

  lemma {:induction false} DriveOn(h: Hashes, cfg: WorkerConfig, env: Env, p: Progress, a: nat, b: nat)
    ensures Drive(h, cfg, env, p, a + b) == Drive(h, cfg, env, Drive(h, cfg, env, p, a), b)
    decreases a
  {
    hide Round;
    if a > 0 { DriveOn(h, cfg, env, Round(h, cfg, env, p).0, a - 1, b); }
  }

  /** By how much a pass puts the message off, in microseconds. */
  function PutOff(h: Hashes, cfg: WorkerConfig, env: Env, p: Progress, id: string): int {
    hide Round;
    var messages := Round(h, cfg, env, p).0.db.messages;
    if Claimable(p.db, env.times(p.cursor.ticks)) != {} && id in messages && messages[id].status == Pending
    then messages[id].availableAt - env.times(p.cursor.ticks + 1)
    else 0
  }

  /** The same for a number of passes. */
  function Backoff(h: Hashes, cfg: WorkerConfig, env: Env, p: Progress, id: string, passes: nat): int
    decreases passes
  {
    hide Round, PutOff;
    if passes == 0 then 0
    else PutOff(h, cfg, env, p, id) + Backoff(h, cfg, env, Round(h, cfg, env, p).0, id, passes - 1)
  }

  /** The publisher fails its first n calls and then hands over to the no-op publisher. */
  ghost predicate FailsFirst(env: Env, n: nat) {
    forall k: nat, signal, key :: env.publish(k, signal, key) == Injected(n, k + 1, Noop, signal, key)
  }

  /** How many failures are retried. */
  function Retries(max: nat, n: nat): nat
    requires max >= 1
  {
    Min(n, max - 1)
  }

  /** The row after a number of calls: pending while calls are left, then published on
      call n + 1, or dead after the budgeted calls. */
  predicate StageRow(max: nat, m: Message, n: nat, calls: nat)
    requires max >= 1
  {
    && m.attempts == calls <= Retries(max, n) + 1
    && m.status == (if calls <= Retries(max, n) then Pending else if n < max then Published else Dead)
  }

  /** No other message waits; others may be published or dead. */
  predicate OnlyWaiting(messages: Messages, id: string) {
    id in messages && forall x :: x in messages && x != id ==> !Waits(messages[x])
  }

  predicate AtStage(max: nat, p: Progress, id: string, n: nat)
    requires max >= 1
  {
    OnlyWaiting(p.db.messages, id) && StageRow(max, p.db.messages[id], n, p.cursor.calls)
  }

  // -------------------------------------------------------------- one pass

  /** Only a pending message at its stage can be claimed. */
  lemma SoleClaim(max: nat, p: Progress, id: string, n: nat, now: int)
    requires max >= 1 && AtStage(max, p, id, n) && Claimable(p.db, now) != {}
    ensures First(Claimable(p.db, now)).id == id && p.db.messages[id].status == Pending
    ensures p.cursor.calls <= Retries(max, n)
  {
    hide Retries;
    assert IsClaimable(p.db.messages[First(Claimable(p.db, now)).id], now);
    hide Claimable;
  }

  lemma SoleRound(h: Hashes, max: nat, cfg: WorkerConfig, env: Env, p: Progress, id: string, n: nat)
    requires max >= 1 && Inv(max, p.db) && cfg.maxAttempts == max && FailsFirst(env, n) && AtStage(max, p, id, n)
    requires Claimable(p.db, env.times(p.cursor.ticks)) != {}
    ensures var next := Round(h, cfg, env, p).0;
            var calls := p.cursor.calls + 1;
            && Inv(max, next.db) && id in next.db.messages
            && next.db.messages == p.db.messages[id := next.db.messages[id]]
            && next.cursor.calls == calls && next.cursor.ticks == p.cursor.ticks + 2
            && calls <= Retries(max, n) + 1 && StageRow(max, next.db.messages[id], n, calls)
            && next.result == Counted(p.result, next.db.messages[id].status)
            && (calls <= Retries(max, n) ==>
                  next.db.messages[id].availableAt == env.times(p.cursor.ticks + 1) + RetryDelay(cfg, calls) * SECOND)
  {
    hide Inv, Claimable, FailsFirst, Round, RoundRow, Counted, CallsAfter, RoundFlight, AtStage;
    SoleClaim(max, p, id, n, env.times(p.cursor.ticks));
    RoundDoes(h, max, cfg, env, p);
    SoleAnswer(max, cfg, env, p, id, n);
    SoleRow(max, cfg, env, p, id, n);
    SoleCalls(max, cfg, env, p, id);
  }

  lemma SoleAnswer(max: nat, cfg: WorkerConfig, env: Env, p: Progress, id: string, n: nat)
    requires Inv(max, p.db) && FailsFirst(env, n) && id in p.db.messages
    requires Claimable(p.db, env.times(p.cursor.ticks)) != {}
    requires First(Claimable(p.db, env.times(p.cursor.ticks))).id == id
    ensures RoundFlight(cfg, env, p).response.value.Ack? <==> p.cursor.calls + 1 > n
  {
    PayloadIsRow(max, p.db, id);
    KeyIsReal(max, p.db, id);
    hide Inv, Claimable, Decode, Blank;
    hide Carries, FailsFirst, Attempted;
    InjectedAnswers(env, n, RoundFlight(cfg, env, p).claimed, p.cursor.calls);
  }

  lemma InjectedAnswers(env: Env, n: nat, claimed: ClaimedMessage, calls: nat)
    requires FailsFirst(env, n) && Decode(claimed.payload).Success? && !Blank(claimed.key)
    ensures Attempted(env, calls, claimed).Ack? <==> calls + 1 > n
  {
    hide Decode, Blank;
  }

  lemma KeyIsReal(max: nat, db: Db, id: string)
    requires Inv(max, db) && id in db.messages
    ensures !Blank(db.messages[id].key)
  {
    assert KeysRecorded(db.idempotency, db.messages)
        && RecordsOk(db.idempotency, db.reservations, db.dispatches, db.settlements);
    hide Inv, Blank;
  }

  lemma SoleRow(max: nat, cfg: WorkerConfig, env: Env, p: Progress, id: string, n: nat)
    requires cfg.maxAttempts == max >= 1 && AtStage(max, p, id, n)
    requires Claimable(p.db, env.times(p.cursor.ticks)) != {}
    requires First(Claimable(p.db, env.times(p.cursor.ticks))).id == id && p.cursor.calls <= Retries(max, n)
    requires RoundFlight(cfg, env, p).response.value.Ack? <==> p.cursor.calls + 1 > n
    ensures var m := RoundRow(cfg, env, p);
            var calls := p.cursor.calls + 1;
            && StageRow(max, m, n, calls)
            && (calls <= Retries(max, n) ==>
                  m.availableAt == env.times(p.cursor.ticks + 1) + RetryDelay(cfg, calls) * SECOND)
  {
    hide Claimable, ErrorText, RetryDelay, Attempted;
  }

  lemma SoleCalls(max: nat, cfg: WorkerConfig, env: Env, p: Progress, id: string)
    requires Inv(max, p.db) && id in p.db.messages
    requires Claimable(p.db, env.times(p.cursor.ticks)) != {}
    requires First(Claimable(p.db, env.times(p.cursor.ticks))).id == id
    ensures CallsAfter(p.cursor.calls, RoundFlight(cfg, env, p).claimed) == p.cursor.calls + 1
  {
    PayloadIsRow(max, p.db, id);
    hide Inv, Claimable, Decode, Attempted;
  }

  /** What lies between two stages: the row of the message and no other, the counters, and
      the time for which it was put off. */
  predicate Between(max: nat, cfg: WorkerConfig, p: Progress, q: Progress, id: string, n: nat, delay: int)
    requires max >= 1
  {
    var k := Retries(max, n);
    var ended := p.cursor.calls <= k < q.cursor.calls;
    && id in p.db.messages && id in q.db.messages && q.db.messages == p.db.messages[id := q.db.messages[id]]
    && p.cursor.calls <= q.cursor.calls
    && q.result == OutboxRunResult(p.result.attempted + q.cursor.calls - p.cursor.calls,
                                   p.result.published + (if ended && n < max then 1 else 0),
                                   p.result.retried + Min(q.cursor.calls, k) - Min(p.cursor.calls, k),
                                   p.result.dead + (if ended && n >= max then 1 else 0))
    && delay == (Scheduled(cfg, Min(q.cursor.calls, k)) - Scheduled(cfg, Min(p.cursor.calls, k))) * SECOND
  }

  lemma PassBetween(h: Hashes, max: nat, cfg: WorkerConfig, env: Env, p: Progress, id: string, n: nat)
    requires max >= 1 && Inv(max, p.db) && cfg.maxAttempts == max && FailsFirst(env, n) && AtStage(max, p, id, n)
    ensures var next := Round(h, cfg, env, p).0;
            && Inv(max, next.db) && AtStage(max, next, id, n)
            && Between(max, cfg, p, next, id, n, PutOff(h, cfg, env, p, id))
  {
    hide Inv, FailsFirst, Round, RetryDelay, SumDelays, Claimable, Between;
    if Claimable(p.db, env.times(p.cursor.ticks)) == {} {
      RoundIdles(h, cfg, env, p);
      IdleBetween(max, cfg, p, p.(cursor := p.cursor.(ticks := p.cursor.ticks + 1)), id, n);
    } else {
      SoleRound(h, max, cfg, env, p, id, n);
      SoleClaim(max, p, id, n, env.times(p.cursor.ticks));
      WorkBetween(max, cfg, p, Round(h, cfg, env, p).0, id, n, PutOff(h, cfg, env, p, id));
    }
  }

  lemma IdleBetween(max: nat, cfg: WorkerConfig, p: Progress, q: Progress, id: string, n: nat)
    requires max >= 1 && id in p.db.messages && q == p.(cursor := q.cursor) && q.cursor.calls == p.cursor.calls
    ensures Between(max, cfg, p, q, id, n, 0)
  {
    hide SumDelays;
    assert p.db.messages[id := p.db.messages[id]] == p.db.messages;
  }

  lemma WorkBetween(max: nat, cfg: WorkerConfig, p: Progress, next: Progress, id: string, n: nat, delay: int)
    requires max >= 1 && id in p.db.messages && id in next.db.messages
    requires next.db.messages == p.db.messages[id := next.db.messages[id]]
    requires next.cursor.calls == p.cursor.calls + 1 <= Retries(max, n) + 1
    requires StageRow(max, next.db.messages[id], n, next.cursor.calls)
    requires next.result == Counted(p.result, next.db.messages[id].status)
    requires delay == if next.cursor.calls <= Retries(max, n) then RetryDelay(cfg, next.cursor.calls) * SECOND else 0
    ensures Between(max, cfg, p, next, id, n, delay)
  {
    hide SumDelays, RetryDelay, Scheduled;
    ScheduledMore(cfg, p.cursor.calls);
  }

  lemma BetweenChains(max: nat, cfg: WorkerConfig, p: Progress, q: Progress, r: Progress, id: string, n: nat,
                      a: int, b: int)
    requires max >= 1 && Between(max, cfg, p, q, id, n, a) && Between(max, cfg, q, r, id, n, b)
    ensures Between(max, cfg, p, r, id, n, a + b)
  {
    hide Scheduled;
  }

  // --------------------------------------------------------------- any clock

  lemma {:induction false} StagesFrom(h: Hashes, max: nat, cfg: WorkerConfig, env: Env, p: Progress, id: string, n: nat,
                                      passes: nat)
    requires max >= 1 && Inv(max, p.db) && cfg.maxAttempts == max && FailsFirst(env, n) && AtStage(max, p, id, n)
    ensures var q := Drive(h, cfg, env, p, passes);
            && Inv(max, q.db) && AtStage(max, q, id, n)
            && Between(max, cfg, p, q, id, n, Backoff(h, cfg, env, p, id, passes))
    decreases passes
  {
    hide Inv, FailsFirst, Round, AtStage, Between, PutOff;
    if passes == 0 {
      StageHasRow(max, p, id, n);
      IdleBetween(max, cfg, p, p, id, n);
    } else {
      var next := Round(h, cfg, env, p).0;
      PassBetween(h, max, cfg, env, p, id, n);
      StagesFrom(h, max, cfg, env, next, id, n, passes - 1);
      BetweenChains(max, cfg, p, next, Drive(h, cfg, env, next, passes - 1), id, n, PutOff(h, cfg, env, p, id),
                    Backoff(h, cfg, env, next, id, passes - 1));
    }
  }

  lemma StageHasRow(max: nat, p: Progress, id: string, n: nat)
    requires max >= 1 && AtStage(max, p, id, n)
    ensures id in p.db.messages
  {
  }

  /** The state and the report after some passes: how far the message got, what the worker
      counted, and the delays scheduled so far, in closed form. */
  predicate RunReport(max: nat, cfg: WorkerConfig, p: Progress, q: Progress, id: string, n: nat, delay: int)
    requires max >= 1 && cfg.Accepted()
  {
    var k, calls := Retries(max, n), q.cursor.calls;
    && id in q.db.messages && q.db.messages == p.db.messages[id := q.db.messages[id]]
    && calls <= k + 1 && q.db.messages[id].attempts == calls
    && (calls <= k ==> q.db.messages[id].status == Pending)
    && (calls == k + 1 && n < max ==> q.db.messages[id].status == Published && calls == n + 1)
    && (calls == k + 1 && n >= max ==> q.db.messages[id].status == Dead && calls == max)
    && q.result == OutboxRunResult(calls, if calls == k + 1 && n < max then 1 else 0, Min(calls, k),
                                   if calls == k + 1 && n >= max then 1 else 0)
    && delay == BackoffClosedForm(cfg.baseRetry, cfg.maxRetry, Min(calls, k)) * SECOND
  }

  /** One fresh message that alone waits, and one worker, against a publisher that fails
      its first N calls. Whatever the clock does and however often the worker passes: the
      message is pending until its last call; if N is below the budget that is call N+1,
      which publishes it, otherwise it is dead after exactly the budgeted calls; and the
      delays scheduled so far sum to the closed form. */
  lemma FaultInjectionRun(h: Hashes, max: nat, cfg: WorkerConfig, env: Env, p: Progress, id: string, n: nat,
                          passes: nat)
    requires cfg.Accepted() && cfg.maxAttempts == max && Inv(max, p.db) && FailsFirst(env, n)
    requires OnlyWaiting(p.db.messages, id)
    requires p.db.messages[id].status == Pending && p.db.messages[id].attempts == 0
    requires p.cursor.calls == 0 && p.result == OutboxRunResult(0, 0, 0, 0)
    ensures RunReport(max, cfg, p, Drive(h, cfg, env, p, passes), id, n, Backoff(h, cfg, env, p, id, passes))
  {
    hide Inv, FailsFirst, Drive, Backoff, RunReport, Between;
    StagesFrom(h, max, cfg, env, p, id, n, passes);
    ReportOf(max, cfg, p, Drive(h, cfg, env, p, passes), id, n, Backoff(h, cfg, env, p, id, passes));
  }

  lemma ReportOf(max: nat, cfg: WorkerConfig, p: Progress, q: Progress, id: string, n: nat, delay: int)
    requires cfg.Accepted() && max >= 1 && p.cursor.calls == 0 && p.result == OutboxRunResult(0, 0, 0, 0)
    requires Between(max, cfg, p, q, id, n, delay) && AtStage(max, q, id, n)
    ensures RunReport(max, cfg, p, q, id, n, delay)
  {
    hide SumDelays, BackoffClosedForm, OnlyWaiting;
    assert SumDelays(cfg.baseRetry, cfg.maxRetry, 0) == 0 by { NoDelays(cfg.baseRetry, cfg.maxRetry); }
    SumDelaysClosed(cfg.baseRetry, cfg.maxRetry, Min(q.cursor.calls, Retries(max, n)));
  }

  lemma NoDelays(delay: nat, most: nat)
    ensures SumDelays(delay, most, 0) == 0
  {
  }

  // ---------------------------------------------------------------- progress

  /** The clock never stops for good. */
  ghost predicate Advances(env: Env) {
    forall k: nat, t: int :: Comes(env, k, t)
  }

  /** Some reading from the k-th on shows the given time or a later one. */
  ghost predicate Comes(env: Env, k: nat, t: int) { exists m: nat :: m >= k && env.times(m) >= t }

  lemma AvailableIsDue(max: nat, db: Db, id: string, now: int)
    requires Inv(max, db) && id in db.messages && db.messages[id].status == Pending
    requires db.messages[id].availableAt <= now
    ensures Claimable(db, now) != {}
  {
    Behind(max, db, id);
    hide Inv;
    assert RankOf(id, db.messages[id]) in Claimable(db, now);
  }

  /** A pending message is found due within the clock readings up to a late enough one. */
  lemma {:induction false} EventuallyDue(h: Hashes, max: nat, cfg: WorkerConfig, env: Env, p: Progress, id: string,
                                         m: nat)
    returns (passes: nat)
    requires Inv(max, p.db) && id in p.db.messages && p.db.messages[id].status == Pending
    requires p.cursor.ticks <= m && p.db.messages[id].availableAt <= env.times(m)
    ensures var q := Drive(h, cfg, env, p, passes);
            q == p.(cursor := p.cursor.(ticks := q.cursor.ticks)) && Claimable(q.db, env.times(q.cursor.ticks)) != {}
    decreases m - p.cursor.ticks
  {
    hide Inv, Round, Claimable;
    if Claimable(p.db, env.times(p.cursor.ticks)) != {} {
      passes := 0;
    } else if p.cursor.ticks == m {
      AvailableIsDue(max, p.db, id, env.times(m));
      assert false;
    } else {
      RoundIdles(h, cfg, env, p);
      var more := EventuallyDue(h, max, cfg, env, Round(h, cfg, env, p).0, id, m);
      passes := more + 1;
    }
  }

  /** With a clock that goes on, the run comes to its end. */
  lemma {:induction false} EventuallyEnds(h: Hashes, max: nat, cfg: WorkerConfig, env: Env, p: Progress, id: string,
                                          n: nat)
    returns (passes: nat)
    requires max >= 1 && Inv(max, p.db) && cfg.maxAttempts == max && FailsFirst(env, n) && AtStage(max, p, id, n)
    requires Advances(env)
    ensures Drive(h, cfg, env, p, passes).cursor.calls == Retries(max, n) + 1
    decreases Retries(max, n) + 1 - p.cursor.calls
  {
    hide Inv, FailsFirst, Round, Claimable;
    if p.cursor.calls == Retries(max, n) + 1 {
      passes := 0;
    } else {
      assert Comes(env, p.cursor.ticks, p.db.messages[id].availableAt);
      var m: nat :| m >= p.cursor.ticks && env.times(m) >= p.db.messages[id].availableAt;
      hide Advances, Comes;
      var idle := EventuallyDue(h, max, cfg, env, p, id, m);
      var q := Drive(h, cfg, env, p, idle);
      SoleRound(h, max, cfg, env, q, id, n);
      var next := Round(h, cfg, env, q).0;
      var more := EventuallyEnds(h, max, cfg, env, next, id, n);
      passes := idle + (1 + more);
      DriveOn(h, cfg, env, p, idle, 1 + more);
    }
  }

  // -------------------------------------------------------------- spacing out

  /** The message is available at the first pass, and between the finalization of each
      pass and the claim of the next the worker waits out the largest delay; publishing
      itself may be as quick as it likes. */
  ghost predicate Spaced(cfg: WorkerConfig, env: Env, p: Progress, id: string)
    requires id in p.db.messages
  {
    && p.db.messages[id].availableAt <= env.times(p.cursor.ticks)
    && forall j: nat ::
         env.times(p.cursor.ticks + 2 * j + 1) + cfg.maxRetry * SECOND <= env.times(p.cursor.ticks + 2 * j + 2)
  }

  lemma StillSpaced(cfg: WorkerConfig, env: Env, p: Progress, next: Progress, id: string, attempts: nat)
    requires id in p.db.messages && id in next.db.messages && Spaced(cfg, env, p, id)
    requires next.cursor.ticks == p.cursor.ticks + 2
    requires next.db.messages[id].availableAt == env.times(p.cursor.ticks + 1) + RetryDelay(cfg, attempts) * SECOND
    ensures Spaced(cfg, env, next, id)
  {
    DelayCapped(cfg, attempts);
    hide RetryDelay;
    assert env.times(p.cursor.ticks + 2 * 0 + 1) + cfg.maxRetry * SECOND <= env.times(p.cursor.ticks + 2 * 0 + 2);
    forall j: nat
      ensures env.times(next.cursor.ticks + 2 * j + 1) + cfg.maxRetry * SECOND
              <= env.times(next.cursor.ticks + 2 * j + 2)
    {
      assert env.times(p.cursor.ticks + 2 * (j + 1) + 1) + cfg.maxRetry * SECOND
          <= env.times(p.cursor.ticks + 2 * (j + 1) + 2);
    }
  }

  lemma DelayCapped(cfg: WorkerConfig, attempts: nat)
    ensures RetryDelay(cfg, attempts) * SECOND <= cfg.maxRetry * SECOND
  {
  }

  /** Then no pass is idle until the run ends: as many passes as calls. */
  lemma {:induction false} SpacedPassesAreDue(h: Hashes, max: nat, cfg: WorkerConfig, env: Env, p: Progress, id: string,
                                              n: nat, passes: nat)
    requires cfg.maxAttempts == max >= 1 && Inv(max, p.db) && FailsFirst(env, n) && AtStage(max, p, id, n)
    requires p.cursor.calls + passes <= Retries(max, n) + 1 && Spaced(cfg, env, p, id)
    ensures Drive(h, cfg, env, p, passes).cursor.calls == p.cursor.calls + passes
    decreases passes
  {
    hide Inv, Round, FailsFirst, RetryDelay, Claimable, Spaced;
    if passes > 0 {
      SpacedIsDue(max, cfg, env, p, id);
      SoleRound(h, max, cfg, env, p, id, n);
      var next := Round(h, cfg, env, p).0;
      if passes > 1 {
        StillSpaced(cfg, env, p, next, id, p.cursor.calls + 1);
        SpacedPassesAreDue(h, max, cfg, env, next, id, n, passes - 1);
      } else {
        assert Drive(h, cfg, env, next, 0) == next;
      }
    }
  }

  lemma SpacedIsDue(max: nat, cfg: WorkerConfig, env: Env, p: Progress, id: string)
    requires Inv(max, p.db) && id in p.db.messages && p.db.messages[id].status == Pending && Spaced(cfg, env, p, id)
    ensures Claimable(p.db, env.times(p.cursor.ticks)) != {}
  {
    hide Inv, Claimable;
    AvailableIsDue(max, p.db, id, env.times(p.cursor.ticks));
  }
}
