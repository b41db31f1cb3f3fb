/** The fault-injection run of a real worker: repeated `run_once(limit=1)` against the
    fault-injecting publisher in front of the no-op one. */
module FaultyWorker {
  import opened Domain
  import opened Outbox
  import opened Invariants
  import opened Publishers
  import opened Batch
  import opened BatchLaws
  import opened FaultRuns
  import opened Worker

  /** Database and position after calling `run_once(limit=1)` a number of times. */
  function Passes(h: Hashes, cfg: WorkerConfig, env: Env, db: Db, cursor: Cursor, passes: nat): (Db, Cursor)
    decreases passes
  {
    hide Batch.RunOnce;
    if passes == 0 then (db, cursor)
    else
      var q := Batch.RunOnce(h, cfg, env, Begin(db, cursor), 1).0;
      Passes(h, cfg, env, q.db, q.cursor, passes - 1)
  }

  /** `run_once(limit=1)` is one round, and counters do not steer rounds. */
  lemma OnePass(h: Hashes, cfg: WorkerConfig, env: Env, p: Progress)
    ensures var q := Batch.RunOnce(h, cfg, env, Begin(p.db, p.cursor), 1).0;
            q.db == Round(h, cfg, env, p).0.db && q.cursor == Round(h, cfg, env, p).0.cursor
  {
    CountersIdle(h, cfg, env, p);
    hide Round;
    var (next, end) := Round(h, cfg, env, Begin(p.db, p.cursor));
    assert Batch.RunOnce(h, cfg, env, next, 0) == (next, Handled);
  }

  lemma CountersIdle(h: Hashes, cfg: WorkerConfig, env: Env, p: Progress)
    ensures Round(h, cfg, env, Begin(p.db, p.cursor)).0.db == Round(h, cfg, env, p).0.db
    ensures Round(h, cfg, env, Begin(p.db, p.cursor)).0.cursor == Round(h, cfg, env, p).0.cursor
  {
    hide Claim, RecordSuccess, RecordFailure, Attempted, CallsAfter;
  }

  lemma {:induction false} PassesAreRounds(h: Hashes, cfg: WorkerConfig, env: Env, p: Progress, passes: nat)
    ensures Passes(h, cfg, env, p.db, p.cursor, passes)
            == (Drive(h, cfg, env, p, passes).db, Drive(h, cfg, env, p, passes).cursor)
    decreases passes
  {
    hide Round, Batch.RunOnce;
    if passes > 0 {
      OnePass(h, cfg, env, p);
      PassesAreRounds(h, cfg, env, Round(h, cfg, env, p).0, passes - 1);
    }
  }

  /** A publisher that injects n failures before the no-op publisher fails its first n
      calls and no other. */
  lemma InjectorFailsFirst(worker: OutboxWorker)
    requires worker.publisher.delegate == Noop
    ensures FailsFirst(worker.Surroundings(), worker.publisher.failuresBeforeSuccess)
  {
  }

  /** A worker with a fresh fault injector, and a fresh message that alone waits. */
  ghost predicate FaultScenario(worker: OutboxWorker, id: string)
    reads worker.session, worker.publisher
  {
    && worker.cfg.Accepted() && Inv(worker.cfg.maxAttempts, worker.session.View())
    && worker.publisher.delegate == Noop && worker.publisher.attempts == 0
    && OnlyWaiting(worker.session.messages, id)
    && worker.session.messages[id].status == Pending && worker.session.messages[id].attempts == 0
  }

  /** How the run ends after all calls: published on attempt n + 1, or dead after exactly
      the budgeted attempts; other messages are as they were. */
  predicate Ended(before: Messages, after: Messages, id: string, n: nat, max: nat) {
    && id in before && id in after && after == before[id := after[id]]
    && (n < max ==> after[id].status == Published && after[id].attempts == n + 1)
    && (n >= max ==> after[id].status == Dead && after[id].attempts == max)
  }

  /** What the run looks like before the end. */
  predicate Underway(before: Messages, after: Messages, id: string, calls: nat) {
    && id in before && id in after && after == before[id := after[id]]
    && after[id].status == Pending && after[id].attempts == calls
  }

  /** The scenario as the runs of `FaultRuns` see it. */
  lemma ScenarioFits(worker: OutboxWorker, id: string)
    requires FaultScenario(worker, id)
    ensures worker.cfg.Accepted() && Inv(worker.cfg.maxAttempts, worker.session.View())
    ensures FailsFirst(worker.Surroundings(), worker.publisher.failuresBeforeSuccess)
    ensures AtStage(worker.cfg.maxAttempts, Begin(worker.session.View(), worker.Position()), id,
                    worker.publisher.failuresBeforeSuccess)
  {
    hide Inv, FailsFirst;
    InjectorFailsFirst(worker);
  }

  /** After so many calls: still under way, or ended. */
  predicate Staged(before: Messages, after: Messages, id: string, n: nat, max: nat, calls: nat)
    requires max >= 1
  {
    if calls <= Retries(max, n) then Underway(before, after, id, calls)
    else calls == Retries(max, n) + 1 && Ended(before, after, id, n, max)
  }

  lemma StagesOfPasses(h: Hashes, max: nat, cfg: WorkerConfig, env: Env, db: Db, cursor: Cursor, id: string, n: nat,
                       passes: nat)
    requires cfg.Accepted() && cfg.maxAttempts == max && Inv(max, db) && FailsFirst(env, n) && cursor.calls == 0
    requires AtStage(max, Begin(db, cursor), id, n)
    ensures var (after, at) := Passes(h, cfg, env, db, cursor, passes);
            && Staged(db.messages, after.messages, id, n, max, at.calls)
            && Backoff(h, cfg, env, Begin(db, cursor), id, passes)
               == BackoffClosedForm(cfg.baseRetry, cfg.maxRetry, Min(at.calls, Retries(max, n))) * SECOND
  {
    hide Inv, FailsFirst, Drive, Backoff, BackoffClosedForm, Passes, Staged, Between, Retries, AtStage;
    var p := Begin(db, cursor);
    StagesFrom(h, max, cfg, env, p, id, n, passes);
    PassesAreRounds(h, cfg, env, p, passes);
    StageMeans(max, cfg, p, Drive(h, cfg, env, p, passes), id, n, Backoff(h, cfg, env, p, id, passes));
  }

  lemma StageMeans(max: nat, cfg: WorkerConfig, p: Progress, q: Progress, id: string, n: nat, delay: int)
    requires max >= 1 && cfg.Accepted() && p.cursor.calls == 0
    requires AtStage(max, q, id, n) && Between(max, cfg, p, q, id, n, delay)
    ensures Staged(p.db.messages, q.db.messages, id, n, max, q.cursor.calls)
    ensures delay == BackoffClosedForm(cfg.baseRetry, cfg.maxRetry, Min(q.cursor.calls, Retries(max, n))) * SECOND
  {
    hide SumDelays, BackoffClosedForm, OnlyWaiting;
    NoDelays(cfg.baseRetry, cfg.maxRetry);
    SumDelaysClosed(cfg.baseRetry, cfg.maxRetry, Min(q.cursor.calls, Retries(max, n)));
  }

  /** Whatever the clock does: after any number of passes the message is still pending with
      an attempt for each call, or all calls are made and the run has ended; and the delays
      scheduled so far sum to the closed form. */
  lemma ScenarioStages(worker: OutboxWorker, id: string, passes: nat)
    requires FaultScenario(worker, id)
    ensures var n, max := worker.publisher.failuresBeforeSuccess, worker.cfg.maxAttempts;
            var env, start := worker.Surroundings(), worker.session.View();
            var (db, cursor) := Passes(worker.h, worker.cfg, env, start, worker.Position(), passes);
            && Staged(start.messages, db.messages, id, n, max, cursor.calls)
            && Backoff(worker.h, worker.cfg, env, Begin(start, worker.Position()), id, passes)
               == BackoffClosedForm(worker.cfg.baseRetry, worker.cfg.maxRetry,
                                    Min(cursor.calls, Retries(max, n))) * SECOND
  {
    hide Inv, FailsFirst, Backoff, BackoffClosedForm, Passes, Staged, Retries, AtStage;
    ScenarioFits(worker, id);
    StagesOfPasses(worker.h, worker.cfg.maxAttempts, worker.cfg, worker.Surroundings(), worker.session.View(),
                   worker.Position(), id, worker.publisher.failuresBeforeSuccess, passes);
  }

  /** If the worker waits out the largest delay between one pass and the next, however
      quick its publishing, the run takes just as many passes as calls. */
  lemma ScenarioEnds(worker: OutboxWorker, id: string)
    requires FaultScenario(worker, id)
    requires Spaced(worker.cfg, worker.Surroundings(), Begin(worker.session.View(), worker.Position()), id)
    ensures var n, max := worker.publisher.failuresBeforeSuccess, worker.cfg.maxAttempts;
            Ended(worker.session.messages,
                  Passes(worker.h, worker.cfg, worker.Surroundings(), worker.session.View(), worker.Position(),
                         Retries(max, n) + 1).0.messages, id, n, max)
  {
    hide Inv, FailsFirst, Drive, Backoff, BackoffClosedForm, Passes, Ended, Underway, Spaced, AtStage, Retries;
    ScenarioFits(worker, id);
    var n, max := worker.publisher.failuresBeforeSuccess, worker.cfg.maxAttempts;
    var env, p := worker.Surroundings(), Begin(worker.session.View(), worker.Position());
    SpacedPassesAreDue(worker.h, max, worker.cfg, env, p, id, n, Retries(max, n) + 1);
    PassesAreRounds(worker.h, worker.cfg, env, p, Retries(max, n) + 1);
    ScenarioStages(worker, id, Retries(max, n) + 1);
  }

  // -------------------------------------------------------------- the worker

  lemma {:induction false} PassesMore(h: Hashes, cfg: WorkerConfig, env: Env, db: Db, cursor: Cursor, passes: nat)
    ensures var (now, at) := Passes(h, cfg, env, db, cursor, passes);
            var q := Batch.RunOnce(h, cfg, env, Begin(now, at), 1).0;
            Passes(h, cfg, env, db, cursor, passes + 1) == (q.db, q.cursor)
    decreases passes
  {
    hide Batch.RunOnce;
    var q := Batch.RunOnce(h, cfg, env, Begin(db, cursor), 1).0;
    if passes > 0 {
      PassesMore(h, cfg, env, q.db, q.cursor, passes - 1);
    } else {
      assert Passes(h, cfg, env, q.db, q.cursor, 0) == (q.db, q.cursor);
    }
  }

  /** How many passes it takes at most. */
  lemma PassesEnough(h: Hashes, max: nat, cfg: WorkerConfig, env: Env, db: Db, cursor: Cursor, id: string, n: nat)
    returns (passes: nat)
    requires cfg.Accepted() && cfg.maxAttempts == max && Inv(max, db) && FailsFirst(env, n) && Advances(env)
    requires AtStage(max, Begin(db, cursor), id, n)
    ensures Passes(h, cfg, env, db, cursor, passes).1.calls == Retries(max, n) + 1
  {
    hide Inv, FailsFirst, Advances, AtStage, Drive, Passes, Retries;
    var p := Begin(db, cursor);
    passes := EventuallyEnds(h, max, cfg, env, p, id, n);
    PassesAreRounds(h, cfg, env, p, passes);
  }

  lemma StagedStatus(before: Messages, after: Messages, id: string, n: nat, max: nat, calls: nat)
    requires max >= 1 && Staged(before, after, id, n, max, calls)
    ensures id in after && (after[id].status == Pending <==> calls <= Retries(max, n))
    ensures calls > Retries(max, n) ==> calls == Retries(max, n) + 1 && Ended(before, after, id, n, max)
  {
    hide Retries;
  }

  /** For any N, one fresh message that alone waits, driven by one worker with
      `run_once(limit=1)` until it waits no more, against a publisher that fails its first
      N calls: it ends published on attempt N+1 if N is below the budget, and otherwise
      dead after exactly the budgeted attempts. The clock may run in any way as long as it
      goes on; passes that find nothing due are harmless. */
  method RunAgainstFaults(worker: OutboxWorker, id: string)
    requires FaultScenario(worker, id) && Advances(worker.Surroundings())
    modifies worker.session, worker.publisher, worker.sources
    ensures Ended(old(worker.session.messages), worker.session.messages, id, worker.publisher.failuresBeforeSuccess,
                  worker.cfg.maxAttempts)
    ensures worker.publisher.attempts == Retries(worker.cfg.maxAttempts, worker.publisher.failuresBeforeSuccess) + 1
  {
    hide Batch.RunOnce, Retries, AtStage, Inv, FailsFirst, Advances, BackoffClosedForm, Backoff, Staged, Ended;
    ghost var db, cursor, env := worker.session.View(), worker.Position(), worker.Surroundings();
    ghost var n, max := worker.publisher.failuresBeforeSuccess, worker.cfg.maxAttempts;
    ScenarioFits(worker, id);
    assert cursor.calls == 0 && id in worker.session.messages;
    hide FaultScenario;
    ghost var last := PassesEnough(worker.h, max, worker.cfg, env, db, cursor, id, n);
    ghost var i: nat := 0;
    assert Passes(worker.h, worker.cfg, env, db, cursor, 0) == (db, cursor);
    hide Passes;
    StagesOfPasses(worker.h, max, worker.cfg, env, db, cursor, id, n, 0);
    StagedStatus(db.messages, worker.session.messages, id, n, max, worker.publisher.attempts);
    while worker.session.messages[id].status == Pending
      invariant i <= last && id in worker.session.messages
      invariant (worker.session.View(), worker.Position()) == Passes(worker.h, worker.cfg, env, db, cursor, i)
      invariant worker.session.messages[id].status == Pending <==> worker.publisher.attempts <= Retries(max, n)
      invariant worker.publisher.attempts > Retries(max, n) ==>
                  worker.publisher.attempts == Retries(max, n) + 1
                  && Ended(db.messages, worker.session.messages, id, n, max)
      decreases last - i
    {
      PassesMore(worker.h, worker.cfg, env, db, cursor, i);
      var _ := worker.RunOnce(1);
      i := i + 1;
      StagesOfPasses(worker.h, max, worker.cfg, env, db, cursor, id, n, i);
      StagedStatus(db.messages, worker.session.messages, id, n, max, worker.publisher.attempts);
    }
  }
}
