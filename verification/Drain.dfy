/** Nothing gets stuck: from every reachable state a worker can still deliver everything
    that waits. */
module Drain {
  import opened Text
  import opened Ordering
  import opened Signals
  import opened Domain
  import opened Outbox
  import opened Invariants
  import opened Preservation
  import opened Replay
  import opened Evidence
  import opened Machine
  import opened MachineInvariants
  import opened MachineSafety
  import opened Guarantees
  import opened EffectivelyOnce
  import opened Overdraft
  import opened Batch
  import opened BatchLaws
  import opened WorkerRuns

  /** Whatever waits can be claimed at the given time. */
  predicate AllDue(db: Db, now: int) {
    forall id :: id in db.messages && Waits(db.messages[id]) ==> IsClaimable(db.messages[id], now)
  }

  ghost predicate Acknowledges(env: Env) { forall k: nat, signal, key :: env.publish(k, signal, key).Ack? }

  /** Rows are as before, or were waiting and are now published. */
  predicate Delivers(messages: Messages, messages': Messages) {
    messages'.Keys == messages.Keys
    && forall id :: id in messages ==>
         messages'[id] == messages[id] || (Waits(messages[id]) && messages'[id].status == Published)
  }

  lemma RoundDelivers(h: Hashes, max: nat, cfg: WorkerConfig, env: Env, p: Progress)
    requires Inv(max, p.db) && cfg.maxAttempts == max && Acknowledges(env)
    requires Claimable(p.db, env.times(p.cursor.ticks)) != {}
    ensures Delivers(p.db.messages, Round(h, cfg, env, p).0.db.messages)
  {
    hide Inv, Decode, Round, Claimable, RoundRow, Acknowledges, Counted;
    var id := First(Claimable(p.db, env.times(p.cursor.ticks))).id;
    PayloadIsRow(max, p.db, id);
    RoundDoes(h, max, cfg, env, p);
    AcknowledgedRow(cfg, env, p);
  }

  lemma AcknowledgedRow(cfg: WorkerConfig, env: Env, p: Progress)
    requires Acknowledges(env) && Claimable(p.db, env.times(p.cursor.ticks)) != {}
    requires Decode(p.db.messages[First(Claimable(p.db, env.times(p.cursor.ticks))).id].payload).Success?
    ensures RoundRow(cfg, env, p).status == Published
  {
    hide Decode, Claimable, ErrorText, RetryDelay;
  }

  lemma StillAllDue(db: Db, db': Db, now: int)
    requires AllDue(db, now) && Delivers(db.messages, db'.messages)
    ensures AllDue(db', now)
  {
  }

  lemma DeliversChains(a: Messages, b: Messages, c: Messages)
    requires Delivers(a, b) && Delivers(b, c)
    ensures Delivers(a, c)
  {
  }

  lemma {:induction false} BatchDelivers(h: Hashes, max: nat, cfg: WorkerConfig, env: Env, p: Progress, limit: nat)
    requires Inv(max, p.db) && cfg.maxAttempts == max && Acknowledges(env)
    ensures Delivers(p.db.messages, RunOnce(h, cfg, env, p, limit).0.db.messages)
    decreases limit
  {
    hide Inv, Round, Acknowledges, Claimable, RoundRow, RunOnce;
    if limit == 0 || Claimable(p.db, env.times(p.cursor.ticks)) == {} {
      RunOnceStops(h, cfg, env, p, limit);
    } else {
      var next := Round(h, cfg, env, p).0;
      RunOnceGoesOn(h, max, cfg, env, p, limit);
      RoundDelivers(h, max, cfg, env, p);
      BatchDelivers(h, max, cfg, env, next, limit - 1);
      hide Delivers;
      DeliversChains(p.db.messages, next.db.messages, RunOnce(h, cfg, env, next, limit - 1).0.db.messages);
    }
  }

  /** Every message that waits is published; all others are as they were. */
  predicate Drained(messages: Messages, messages': Messages) {
    messages'.Keys == messages.Keys
    && forall id :: id in messages ==>
         if Waits(messages[id]) then messages'[id].status == Published else messages'[id] == messages[id]
  }

  /** A batch large enough, at a time when all that waits is due, with a publisher that
      acknowledges, publishes everything that waits. */
  lemma BatchDrains(h: Hashes, max: nat, cfg: WorkerConfig, env: Env, db: Db, cursor: Cursor, limit: nat, now: int)
    requires Inv(max, db) && cfg.maxAttempts == max && cfg.Accepted() && Acknowledges(env)
    requires forall i: nat :: env.times(i) == now
    requires AllDue(db, now) && limit >= |Claimable(db, now)|
    ensures Drained(db.messages, RunOnce(h, cfg, env, Begin(db, cursor), limit).0.db.messages)
  {
    hide Inv, RunOnce, FirstIds, Claimable, Listing, Acknowledges;
    BatchExact(h, max, cfg, env, db, cursor, limit, now);
    BatchDelivers(h, max, cfg, env, Begin(db, cursor), limit);
    var q := RunOnce(h, cfg, env, Begin(db, cursor), limit).0;
    StillAllDue(db, q.db, now);
    NoneClaimable(q.db, now);
    hide IsClaimable;
  }

  lemma NoneClaimable(db: Db, now: int)
    requires Claimable(db, now) == {}
    ensures forall id :: id in db.messages ==> !IsClaimable(db.messages[id], now)
  {
    hide IsClaimable;
  }

  /** Delivery touches messages, dispatches, reservations and the log only. */
  predicate OnlyDelivery(a: Db, b: Db) {
    b == a.(messages := b.messages, dispatches := b.dispatches, reservations := b.reservations, log := b.log)
  }

  lemma FinalizedOnly(h: Hashes, db: Db, f: Flight, stamp: Stamp)
    requires f.response.Some?
    ensures OnlyDelivery(db, Finalized(h, db, f, stamp))
  {
    hide RecordSuccess, RecordFailure;
    match f.response.value
    case Ack(reference) => SuccessOnly(h, db, f.cfg, f.claimed, reference, stamp);
    case Raise(error) => FailureOnly(h, db, f.cfg, f.claimed, error, stamp);
  }

  lemma SuccessOnly(h: Hashes, db: Db, cfg: WorkerConfig, c: ClaimedMessage, reference: string, stamp: Stamp)
    ensures var r := RecordSuccess(h, db, cfg, c, reference, stamp); r.Done? ==> OnlyDelivery(db, r.db)
  {
    hide LogEvent, SystemActor;
  }

  lemma FailureOnly(h: Hashes, db: Db, cfg: WorkerConfig, c: ClaimedMessage, error: string, stamp: Stamp)
    ensures OnlyDelivery(db, RecordFailure(h, db, cfg, c, error, stamp).db)
  {
    if HoldsLease(db, c) {
      FailureWrites(h, db, cfg, c, error, stamp);
      hide RecordFailure;
    }
  }

  lemma ClaimOnly(db: Db, cfg: WorkerConfig, token: string, now: int)
    ensures OnlyDelivery(db, Claim(db, cfg, token, now).db)
  {
    hide Claimable;
  }

  lemma RoundOnly(h: Hashes, cfg: WorkerConfig, env: Env, p: Progress)
    requires Claimable(p.db, env.times(p.cursor.ticks)) != {}
    ensures OnlyDelivery(p.db, Round(h, cfg, env, p).0.db)
  {
    hide Claimable, Claim, Finalized, Round, RoundFlight;
    var token, now := TokenOf(cfg, env, p.cursor.claims), env.times(p.cursor.ticks);
    RoundDb(h, cfg, env, p);
    FlightAnswered(cfg, env, p);
    ClaimOnly(p.db, cfg, token, now);
    FinalizedOnly(h, Claim(p.db, cfg, token, now).db, RoundFlight(cfg, env, p),
                  Stamp(env.eventIds(|p.db.log|), env.times(p.cursor.ticks + 1)));
  }

  lemma FlightAnswered(cfg: WorkerConfig, env: Env, p: Progress)
    requires Claimable(p.db, env.times(p.cursor.ticks)) != {}
    ensures RoundFlight(cfg, env, p).response.Some?
  {
    hide Claimable, Attempted;
  }

  lemma {:induction false} BatchOnly(h: Hashes, max: nat, cfg: WorkerConfig, env: Env, p: Progress, limit: nat)
    requires Inv(max, p.db) && cfg.maxAttempts == max
    ensures OnlyDelivery(p.db, RunOnce(h, cfg, env, p, limit).0.db)
    decreases limit
  {
    hide Inv, Round, Claimable, RoundRow, RunOnce;
    if limit == 0 || Claimable(p.db, env.times(p.cursor.ticks)) == {} {
      RunOnceStops(h, cfg, env, p, limit);
    } else {
      RunOnceGoesOn(h, max, cfg, env, p, limit);
      RoundOnly(h, cfg, env, p);
      BatchOnly(h, max, cfg, env, Round(h, cfg, env, p).0, limit - 1);
    }
  }

  // ----------------------------------------------------------- a late worker

  /** A time by which everything that waits has become due. */
  lemma {:induction false} LateEnough(max: nat, db: Db, ids: set<string>, clock: int) returns (now: int)
    requires Inv(max, db) && ids <= db.messages.Keys
    ensures now >= clock
    ensures forall id :: id in ids && Waits(db.messages[id]) ==> IsClaimable(db.messages[id], now)
  {
    hide Inv;
    if ids == {} {
      now := clock;
    } else {
      var id :| id in ids;
      var t := LateEnough(max, db, ids - {id}, clock);
      var m := db.messages[id];
      Behind(max, db, id);
      now := Latest(t, Latest(m.availableAt, if m.leaseExpiresAt.Some? then m.leaseExpiresAt.value else t));
    }
  }

  /** What a worker that may act on a world at a given time draws on, when its publisher
      acknowledges everything. */
  lemma FreshWorker(cfg: WorkerConfig, w: World, now: int) returns (env: Env)
    requires now >= w.clock
    ensures Suits(cfg, env, Cursor(0, 0, 0), w) && Acknowledges(env) && forall i: nat :: env.times(i) == now
  {
    var used := set i | 0 <= i < |w.db.log| :: w.db.log[i].hashed.eventId;
    var n := LongerThanAll(w.tokens);
    var k := LongerThanAll(used);
    env := Env(_ => now, (i: nat) => Zeros(n + i), (i: nat) => Zeros(k + i), (_, _, _) => Ack("done"), _ => "");
    forall i: nat ensures |TokenOf(cfg, env, i)| == |cfg.workerId| + 1 + n + i && |env.eventIds(i)| == k + i {
      assert env.tokens(i) == Zeros(n + i) && env.eventIds(i) == Zeros(k + i);
    }
    forall i: nat ensures TokenOf(cfg, env, i) !in w.tokens {
      assert |TokenOf(cfg, env, i)| >= n;
    }
    forall i: nat ensures FreshEvent(w.db, env.eventIds(i)) {
      forall j | 0 <= j < |w.db.log| ensures w.db.log[j].hashed.eventId != env.eventIds(i) {
        assert w.db.log[j].hashed.eventId in used;
      }
    }
    hide Zeros, FreshEvent;
    forall i: nat, j: nat | TokenOf(cfg, env, i) == TokenOf(cfg, env, j) ensures i == j {
      assert |TokenOf(cfg, env, i)| == |TokenOf(cfg, env, j)|;
    }
    forall i: nat, j: nat | env.eventIds(i) == env.eventIds(j) ensures i == j {
      assert |env.eventIds(i)| == |env.eventIds(j)|;
    }
  }

  /** From every reachable state some continuation publishes every message that waits,
      changes no other, and leaves assets, offers, readings, settlements and idempotency
      records alone: whatever claims, crashes, lost leases and failures came before,
      nothing is stuck. */
  lemma NothingIsStuck(h: Hashes, max: nat, w: World)
    requires max >= 1 && Reachable(h, max, w)
    ensures exists run ::
              && Legal(h, max, w, run) && Drained(w.db.messages, EndOf(h, max, w, run).db.messages)
              && OnlyDelivery(w.db, EndOf(h, max, w, run).db)
  {
    hide Reachable, Inv, LogInv, EvidenceInv, TablesOk, Legal, EndOf, Drained, RunOnce, Suits, Acknowledges,
      IsClaimable, Claimable, OnlyDelivery;
    ReachableParts(h, max, w);
    var now := LateEnough(max, w.db, w.db.messages.Keys, w.clock);
    var cfg := WorkerConfig("worker", max, 1, 1, 1);
    var env := FreshWorker(cfg, w, now);
    var cursor, limit := Cursor(0, 0, 0), |Claimable(w.db, now)|;
    BatchDrains(h, max, cfg, env, w.db, cursor, limit, now);
    BatchOnly(h, max, cfg, env, Begin(w.db, cursor), limit);
    RunOnceIsRun(h, max, cfg, env, Begin(w.db, cursor), w, limit);
  }
}
