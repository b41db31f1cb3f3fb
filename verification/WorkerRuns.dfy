/** The worker's loop is a run of the machine, so what holds of all runs holds of it. */
module WorkerRuns {
  import opened Wrappers
  import opened Signals
  import opened Domain
  import opened Outbox
  import opened Invariants
  import opened Machine
  import opened MachineInvariants
  import opened Guarantees
  import opened Runs
  import opened Batch
  import opened BatchLaws

  /** What a worker draws on suits a world: its clock readings do not run backwards, its
      tokens and event ids are fresh. */
  ghost predicate Suits(cfg: WorkerConfig, env: Env, cursor: Cursor, w: World) {
    && w.clock <= env.times(cursor.ticks)
    && (forall k: nat :: k >= cursor.ticks ==> env.times(k) <= env.times(k + 1))
    && (forall k: nat :: k >= cursor.claims ==> TokenOf(cfg, env, k) !in w.tokens)
    && (forall j: nat, k: nat :: TokenOf(cfg, env, j) == TokenOf(cfg, env, k) ==> j == k)
    && (forall k: nat :: k >= |w.db.log| ==> FreshEvent(w.db, env.eventIds(k)))
    && (forall j: nat, k: nat :: env.eventIds(j) == env.eventIds(k) ==> j == k)
  }

  function TokenOf(cfg: WorkerConfig, env: Env, k: nat): string { cfg.workerId + ":" + env.tokens(k) }

  /** Claim, publish, finalize. */
  function RoundRun(cfg: WorkerConfig, env: Env, p: Progress): seq<Event>
    requires Claimable(p.db, env.times(p.cursor.ticks)) != {}
  {
    var token := TokenOf(cfg, env, p.cursor.claims);
    var id := env.eventIds(|p.db.log|);
    var f := RoundFlight(cfg, env, p);
    [Event(ClaimStep(cfg, token), Stamp(id, env.times(p.cursor.ticks))),
     Event(PublishStep(token, f.response.value, Decode(f.claimed.payload).Success?),
           Stamp(id, env.times(p.cursor.ticks))),
     Event(FinalizeStep(token), Stamp(id, env.times(p.cursor.ticks + 1)))]
  }

  lemma LegalStep(h: Hashes, max: nat, w: World, run: seq<Event>)
    requires run != [] && Enabled(max, w, run[0].step, run[0].stamp)
    requires Legal(h, max, Next(h, max, w, run[0].step, run[0].stamp), run[1..])
    ensures Legal(h, max, w, run)
    ensures EndOf(h, max, w, run) == EndOf(h, max, Next(h, max, w, run[0].step, run[0].stamp), run[1..])
  {
    hide Enabled, Next;
  }

  lemma ThreeSteps(h: Hashes, max: nat, a: World, b: World, c: World, d: World, run: seq<Event>)
    requires |run| == 3
    requires Enabled(max, a, run[0].step, run[0].stamp) && b == Next(h, max, a, run[0].step, run[0].stamp)
    requires Enabled(max, b, run[1].step, run[1].stamp) && c == Next(h, max, b, run[1].step, run[1].stamp)
    requires Enabled(max, c, run[2].step, run[2].stamp) && d == Next(h, max, c, run[2].step, run[2].stamp)
    ensures Legal(h, max, a, run) && EndOf(h, max, a, run) == d
  {
    hide Enabled, Next;
    assert Legal(h, max, d, []) && EndOf(h, max, d, []) == d;
    assert run[2..][1..] == [];
    LegalStep(h, max, c, run[2..]);
    assert run[1..][1..] == run[2..];
    LegalStep(h, max, b, run[1..]);
    LegalStep(h, max, a, run);
  }

  /** A round writes what its claim and then the finalization of its flight write. */
  lemma RoundDb(h: Hashes, cfg: WorkerConfig, env: Env, p: Progress)
    requires Claimable(p.db, env.times(p.cursor.ticks)) != {}
    ensures var claim := Claim(p.db, cfg, TokenOf(cfg, env, p.cursor.claims), env.times(p.cursor.ticks));
            && claim.claimed.Some? && claim.db.log == p.db.log
            && Round(h, cfg, env, p).0.db
               == Finalized(h, claim.db, RoundFlight(cfg, env, p),
                            Stamp(env.eventIds(|p.db.log|), env.times(p.cursor.ticks + 1)))
  {
    hide Claimable, RecordSuccess, RecordFailure, Attempted;
  }

  /** The worlds after the claim and after the publish. */
  function Claimed(w: World, cfg: WorkerConfig, env: Env, p: Progress): World
    requires Claimable(p.db, env.times(p.cursor.ticks)) != {}
  {
    var token, now := TokenOf(cfg, env, p.cursor.claims), env.times(p.cursor.ticks);
    w.(db := Claim(p.db, cfg, token, now).db, clock := now, tokens := w.tokens + {token}, claims := w.claims + 1,
       flights := w.flights[token := RoundFlight(cfg, env, p).(order := w.claims, response := None)])
  }

  function Sent(w: World, cfg: WorkerConfig, env: Env, p: Progress): World
    requires Claimable(p.db, env.times(p.cursor.ticks)) != {}
  {
    var f := RoundFlight(cfg, env, p);
    var w' := Claimed(w, cfg, env, p);
    w'.(flights := w'.flights[TokenOf(cfg, env, p.cursor.claims) := f.(order := w.claims)],
        deliveries := if Decode(f.claimed.payload).Success?
                      then w.deliveries + [Delivery(f.claimed.key, Decode(f.claimed.payload).value, f.claimed.id)]
                      else w.deliveries)
  }

  lemma ClaimIsStep(h: Hashes, max: nat, cfg: WorkerConfig, env: Env, p: Progress, w: World)
    requires cfg.Accepted() && cfg.maxAttempts == max && w.db == p.db && Suits(cfg, env, p.cursor, w)
    requires Claimable(p.db, env.times(p.cursor.ticks)) != {}
    ensures var e := RoundRun(cfg, env, p)[0];
            Enabled(max, w, e.step, e.stamp) && Next(h, max, w, e.step, e.stamp) == Claimed(w, cfg, env, p)
  {
    hide Claimable, FreshEvent, Attempted, Decode, RoundRun;
    RoundEvents(cfg, env, p);
  }

  lemma PublishIsStep(h: Hashes, max: nat, cfg: WorkerConfig, env: Env, p: Progress, w: World)
    requires w.db == p.db && FreshEvent(p.db, env.eventIds(|p.db.log|))
    requires Claimable(p.db, env.times(p.cursor.ticks)) != {}
    ensures var e := RoundRun(cfg, env, p)[1];
            var b := Claimed(w, cfg, env, p);
            Enabled(max, b, e.step, e.stamp) && Next(h, max, b, e.step, e.stamp) == Sent(w, cfg, env, p)
  {
    RoundDb(h, cfg, env, p);
    hide Claimable, Decode, TokenOf, Claim, Attempted, FreshEvent, Round, Finalized, Enabled, Next;
    var b := Claimed(w, cfg, env, p);
    var f := RoundFlight(cfg, env, p).(order := w.claims);
    assert FreshEvent(b.db, env.eventIds(|p.db.log|)) by { SameLogSameFresh(p.db, b.db, env.eventIds(|p.db.log|)); }
    AttemptedShape(env, p.cursor.calls, f.claimed);
    PublishingIs(h, max, b, TokenOf(cfg, env, p.cursor.claims), f, Stamp(env.eventIds(|p.db.log|), b.clock));
  }

  /** What a publish step does to a world in which the claim has just been made. */
  lemma PublishingIs(h: Hashes, max: nat, b: World, token: string, f: Flight, stamp: Stamp)
    requires token in b.flights && b.flights[token] == f.(response := None) && f.response.Some?
    requires stamp.at == b.clock && FreshEvent(b.db, stamp.eventId)
    requires Decode(f.claimed.payload).Failure? ==> f.response.value.Raise?
    ensures var step := PublishStep(token, f.response.value, Decode(f.claimed.payload).Success?);
            && Enabled(max, b, step, stamp)
            && Next(h, max, b, step, stamp)
               == b.(flights := b.flights[token := f],
                     deliveries := if Decode(f.claimed.payload).Success?
                                   then
                                     b.deliveries
                                     + [Delivery(f.claimed.key, Decode(f.claimed.payload).value, f.claimed.id)]
                                   else b.deliveries)
  {
    hide Decode, FreshEvent;
  }

  lemma SameLogSameFresh(a: Db, b: Db, eventId: string)
    requires a.log == b.log && FreshEvent(a, eventId)
    ensures FreshEvent(b, eventId)
  {
  }

  /** A payload that cannot be decoded raises. */
  lemma AttemptedShape(env: Env, calls: nat, claimed: ClaimedMessage)
    ensures Decode(claimed.payload).Failure? ==> Attempted(env, calls, claimed).Raise?
  {
    hide Decode;
  }

  lemma FinalizeIsStep(h: Hashes, max: nat, cfg: WorkerConfig, env: Env, p: Progress, w: World)
    requires w.db == p.db && FreshEvent(p.db, env.eventIds(|p.db.log|))
    requires env.times(p.cursor.ticks) <= env.times(p.cursor.ticks + 1)
    requires Claimable(p.db, env.times(p.cursor.ticks)) != {}
    ensures var e := RoundRun(cfg, env, p)[2];
            var c := Sent(w, cfg, env, p);
            && Enabled(max, c, e.step, e.stamp)
            && Next(h, max, c, e.step, e.stamp).db == Round(h, cfg, env, p).0.db
            && Next(h, max, c, e.step, e.stamp).tokens == w.tokens + {TokenOf(cfg, env, p.cursor.claims)}
            && Next(h, max, c, e.step, e.stamp).clock == env.times(p.cursor.ticks + 1)
  {
    hide Claimable, Decode, TokenOf, Claim, Attempted, Finalized, Round, FreshEvent, Enabled, Next, RoundFlight,
      RoundRun, Claimed, Sent;
    RoundDb(h, cfg, env, p);
    RoundEvents(cfg, env, p);
    SentHas(w, cfg, env, p);
    var c, stamp := Sent(w, cfg, env, p), Stamp(env.eventIds(|p.db.log|), env.times(p.cursor.ticks + 1));
    SameLogSameFresh(p.db, c.db, stamp.eventId);
    FinalizingIs(h, max, c, TokenOf(cfg, env, p.cursor.claims), stamp);
    FinalizedOrder(h, c.db, RoundFlight(cfg, env, p), w.claims, stamp);
  }

  lemma RoundEvents(cfg: WorkerConfig, env: Env, p: Progress)
    requires Claimable(p.db, env.times(p.cursor.ticks)) != {}
    ensures var token, id := TokenOf(cfg, env, p.cursor.claims), env.eventIds(|p.db.log|);
            && RoundRun(cfg, env, p)[0] == Event(ClaimStep(cfg, token), Stamp(id, env.times(p.cursor.ticks)))
            && RoundRun(cfg, env, p)[2] == Event(FinalizeStep(token), Stamp(id, env.times(p.cursor.ticks + 1)))
  {
    hide Claimable, Decode, TokenOf, RoundFlight;
  }

  /** What the finalization needs to know of the world after the publish. */
  lemma SentHas(w: World, cfg: WorkerConfig, env: Env, p: Progress)
    requires Claimable(p.db, env.times(p.cursor.ticks)) != {}
    ensures var c, token := Sent(w, cfg, env, p), TokenOf(cfg, env, p.cursor.claims);
            && token in c.flights && c.flights[token] == RoundFlight(cfg, env, p).(order := w.claims)
            && c.flights[token].response.Some?
            && c.db == Claim(p.db, cfg, token, env.times(p.cursor.ticks)).db
            && c.clock == env.times(p.cursor.ticks) && c.tokens == w.tokens + {token}
  {
    hide Claimable, Decode, TokenOf, Claim, Attempted;
  }

  /** What a finalization step does to a world. */
  lemma FinalizingIs(h: Hashes, max: nat, c: World, token: string, stamp: Stamp)
    requires token in c.flights && c.flights[token].response.Some?
    requires stamp.at >= c.clock && FreshEvent(c.db, stamp.eventId)
    ensures Enabled(max, c, FinalizeStep(token), stamp)
    ensures var next := Next(h, max, c, FinalizeStep(token), stamp);
            && next.db == Finalized(h, c.db, c.flights[token], stamp)
            && next.tokens == c.tokens && next.clock == stamp.at
  {
    hide Finalized, FreshEvent;
  }

  /** The number of a claim does not matter when it is finalized. */
  lemma FinalizedOrder(h: Hashes, db: Db, f: Flight, order: nat, stamp: Stamp)
    requires f.response.Some?
    ensures Finalized(h, db, f.(order := order), stamp) == Finalized(h, db, f, stamp)
  {
    hide RecordSuccess, RecordFailure;
  }

  /** A round with work to do is a claim, a publish and a finalization of the machine. */
  lemma RoundIsRun(h: Hashes, max: nat, cfg: WorkerConfig, env: Env, p: Progress, w: World)
    requires cfg.Accepted() && cfg.maxAttempts == max && w.db == p.db && Suits(cfg, env, p.cursor, w)
    requires Claimable(p.db, env.times(p.cursor.ticks)) != {}
    ensures Legal(h, max, w, RoundRun(cfg, env, p))
    ensures EndOf(h, max, w, RoundRun(cfg, env, p)).db == Round(h, cfg, env, p).0.db
    ensures EndOf(h, max, w, RoundRun(cfg, env, p)).tokens == w.tokens + {TokenOf(cfg, env, p.cursor.claims)}
    ensures EndOf(h, max, w, RoundRun(cfg, env, p)).clock == env.times(p.cursor.ticks + 1)
  {
    ClaimIsStep(h, max, cfg, env, p, w);
    PublishIsStep(h, max, cfg, env, p, w);
    FinalizeIsStep(h, max, cfg, env, p, w);
    hide Claimable, Legal, EndOf, TokenOf, Claimed, Sent, Round, Enabled, Next, FreshEvent;
    var run := RoundRun(cfg, env, p);
    var c := Sent(w, cfg, env, p);
    ThreeSteps(h, max, w, Claimed(w, cfg, env, p), c, Next(h, max, c, run[2].step, run[2].stamp), run);
  }

  /** The log as it was, or with one more event. */
  predicate Appended(db: Db, db': Db, eventId: string) {
    db'.log == db.log
    || (|db'.log| == |db.log| + 1 && db'.log[..|db.log|] == db.log && db'.log[|db.log|].hashed.eventId == eventId)
  }

  lemma FinalizedLog(h: Hashes, db: Db, f: Flight, stamp: Stamp)
    requires f.response.Some?
    ensures Appended(db, Finalized(h, db, f, stamp), stamp.eventId)
  {
    hide RecordSuccess, RecordFailure;
    match f.response.value
    case Ack(reference) => SuccessLog(h, db, f.cfg, f.claimed, reference, stamp);
    case Raise(error) => FailureLog(h, db, f.cfg, f.claimed, error, stamp);
  }

  lemma SuccessLog(h: Hashes, db: Db, cfg: WorkerConfig, c: ClaimedMessage, reference: string, stamp: Stamp)
    ensures var r := RecordSuccess(h, db, cfg, c, reference, stamp); r.Done? ==> Appended(db, r.db, stamp.eventId)
  {
  }

  lemma FailureLog(h: Hashes, db: Db, cfg: WorkerConfig, c: ClaimedMessage, error: string, stamp: Stamp)
    ensures Appended(db, RecordFailure(h, db, cfg, c, error, stamp).db, stamp.eventId)
  {
    hide ErrorText, RetryDelay, LogEvent;
    FactLogged(h, db, DeliveryFailed(c.aggregateId, c.id, if c.id in db.messages then db.messages[c.id].attempts else 0,
                                     ErrorText(error)),
               SystemActor(cfg), c.key, stamp);
  }

  lemma FactLogged(h: Hashes, db: Db, f: Fact, actorId: string, correlationId: string, stamp: Stamp)
    ensures Appended(db, db.(log := LogEvent(h, db.log, f, actorId, correlationId, stamp)), stamp.eventId)
  {
  }

  lemma RoundAppends(h: Hashes, cfg: WorkerConfig, env: Env, p: Progress)
    requires Claimable(p.db, env.times(p.cursor.ticks)) != {}
    ensures Appended(p.db, Round(h, cfg, env, p).0.db, env.eventIds(|p.db.log|))
  {
    hide Claimable, Round, Claim, Finalized;
    RoundDb(h, cfg, env, p);
    var claim := Claim(p.db, cfg, TokenOf(cfg, env, p.cursor.claims), env.times(p.cursor.ticks));
    FinalizedLog(h, claim.db, RoundFlight(cfg, env, p), Stamp(env.eventIds(|p.db.log|), env.times(p.cursor.ticks + 1)));
  }

  lemma StillSuits(cfg: WorkerConfig, env: Env, cursor: Cursor, w: World, cursor': Cursor, w': World)
    requires Suits(cfg, env, cursor, w) && cursor'.ticks == cursor.ticks + 2 && cursor'.claims == cursor.claims + 1
    requires Appended(w.db, w'.db, env.eventIds(|w.db.log|))
    requires w'.tokens == w.tokens + {TokenOf(cfg, env, cursor.claims)} && w'.clock == env.times(cursor.ticks + 1)
    ensures Suits(cfg, env, cursor', w')
  {
    hide TokenOf, FreshEvent, Appended;
    assert env.times(cursor.ticks + 1) <= env.times(cursor.ticks + 1 + 1);
    forall k: nat | k >= |w'.db.log| ensures FreshEvent(w'.db, env.eventIds(k)) {
      LogGrows(w.db, w'.db, env.eventIds(|w.db.log|));
      FreshAfter(w.db, w'.db, env.eventIds(|w.db.log|), env.eventIds(k));
    }
  }

  lemma LogGrows(db: Db, db': Db, eventId: string)
    requires Appended(db, db', eventId)
    ensures |db'.log| == |db.log| || (|db'.log| == |db.log| + 1)
  {
  }

  lemma FreshAfter(db: Db, db': Db, eventId: string, other: string)
    requires Appended(db, db', eventId) && FreshEvent(db, other) && (|db'.log| > |db.log| ==> other != eventId)
    ensures FreshEvent(db', other)
  {
    forall i | 0 <= i < |db'.log| ensures db'.log[i].hashed.eventId != other {
      if i < |db.log| { assert db'.log[i] == db'.log[..|db.log|][i] == db.log[i]; }
    }
  }

  /** Whatever a batch does to the database, a run of the machine does. */
  lemma {:induction false} RunOnceIsRun(h: Hashes, max: nat, cfg: WorkerConfig, env: Env, p: Progress, w: World,
                                        limit: nat)
    requires cfg.Accepted() && cfg.maxAttempts == max && w.db == p.db && Inv(max, p.db) && Suits(cfg, env, p.cursor, w)
    ensures exists run :: Legal(h, max, w, run) && EndOf(h, max, w, run).db == RunOnce(h, cfg, env, p, limit).0.db
    decreases limit
  {
    hide Inv, Round, Suits, Claimable, RoundRun, RoundRow, Legal, EndOf, RunOnce;
    if limit == 0 || Claimable(p.db, env.times(p.cursor.ticks)) == {} {
      RunOnceStops(h, cfg, env, p, limit);
      NoSteps(h, max, w);
    } else {
      var w' := RoundLeadsTo(h, max, cfg, env, p, w);
      RunOnceGoesOn(h, max, cfg, env, p, limit);
      RunOnceIsRun(h, max, cfg, env, Round(h, cfg, env, p).0, w', limit - 1);
      var more :| Legal(h, max, w', more) && EndOf(h, max, w', more).db == RunOnce(h, cfg, env, p, limit).0.db;
      RunsJoin(h, max, w, RoundRun(cfg, env, p), more);
    }
  }

  /** The world that the run of a round leads to; the worker may go on in it. */
  lemma RoundLeadsTo(h: Hashes, max: nat, cfg: WorkerConfig, env: Env, p: Progress, w: World) returns (w': World)
    requires cfg.Accepted() && cfg.maxAttempts == max && w.db == p.db && Inv(max, p.db) && Suits(cfg, env, p.cursor, w)
    requires Claimable(p.db, env.times(p.cursor.ticks)) != {}
    ensures Legal(h, max, w, RoundRun(cfg, env, p)) && w' == EndOf(h, max, w, RoundRun(cfg, env, p))
    ensures w'.db == Round(h, cfg, env, p).0.db && Suits(cfg, env, Round(h, cfg, env, p).0.cursor, w')
  {
    hide Inv, Round, Suits, Claimable, RoundRun, RoundRow, Counted, Appended, Legal, EndOf, Extends;
    RoundDoes(h, max, cfg, env, p);
    RoundIsRun(h, max, cfg, env, p, w);
    w' := EndOf(h, max, w, RoundRun(cfg, env, p));
    RoundAppends(h, cfg, env, p);
    StillSuits(cfg, env, p.cursor, w, Round(h, cfg, env, p).0.cursor, w');
  }

  lemma NoSteps(h: Hashes, max: nat, w: World)
    ensures Legal(h, max, w, []) && EndOf(h, max, w, []) == w
  {
  }

  /** A batch from a reachable state ends in the database of a reachable state: every
      guarantee about runs extends to the worker's loop. */
  lemma BatchesAreReachable(h: Hashes, max: nat, cfg: WorkerConfig, env: Env, cursor: Cursor, w: World, limit: nat)
    requires max >= 1 && cfg.Accepted() && cfg.maxAttempts == max && Reachable(h, max, w) && Suits(cfg, env, cursor, w)
    ensures exists w' :: Reachable(h, max, w') && w'.db == RunOnce(h, cfg, env, Begin(w.db, cursor), limit).0.db
  {
    hide Reachable, Inv, RunOnce, Suits, TablesOk, Legal, EndOf;
    ReachableParts(h, max, w);
    var p := Begin(w.db, cursor);
    RunOnceIsRun(h, max, cfg, env, p, w, limit);
    var run :| Legal(h, max, w, run) && EndOf(h, max, w, run).db == RunOnce(h, cfg, env, p, limit).0.db;
    ReachableOn(h, max, w, run);
  }
}
