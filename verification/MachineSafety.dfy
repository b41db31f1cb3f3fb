/** Every step of the machine keeps its invariant, so it holds over all runs. */
module MachineSafety {
  import opened Wrappers
  import opened Text
  import opened Signals
  import opened AuditChain
  import opened Domain
  import opened Outbox
  import opened Invariants
  import opened Preservation
  import opened Replay
  import opened Accounting
  import opened Evidence
  import opened Machine
  import opened MachineInvariants

  /** The database part of the invariant. */
  ghost predicate DbInv(h: Hashes, max: nat, db: Db) { Inv(max, db) && LogInv(h, db) && EvidenceInv(h, db) }

  lemma Parts(h: Hashes, max: nat, w: World)
    ensures WorldInv(h, max, w) <==>
              DbInv(h, max, w.db)
              && TablesOk(max, w.db.messages, w.flights, w.tokens, w.claims, w.deliveries, w.failures, w.clock)
  {
    hide Inv, LogInv, EvidenceInv, FlightsOk, Fenced, LocksOk, DeliveriesOk, Reached, FailuresOk, ClockOk;
  }

  lemma SilentKeeps(h: Hashes, a: Db, b: Db)
    requires LogInv(h, a) && Silent(a, b)
    ensures LogInv(h, b)
  {
    hide Statuses, Replayed, Lawful, RecordedIn;
  }

  lemma TablesHave(max: nat, w: World, clock: int)
    requires TablesOk(max, w.db.messages, w.flights, w.tokens, w.claims, w.deliveries, w.failures, clock)
    ensures FlightsOk(max, w.flights, w.db.messages, w.tokens, w.claims, clock) && Fenced(w.flights)
    ensures LocksOk(w.db.messages, w.flights, w.tokens)
    ensures FailuresOk(max, w.failures, w.db.messages) && Reached(w.db.messages, w.flights, w.deliveries)
  {
    hide FlightsOk, Fenced, LocksOk, DeliveriesOk, Reached, FailuresOk, ClockOk;
  }

  // --------------------------------------------------------------------- api

  lemma ApiKeeps(h: Hashes, max: nat, w: World, c: Command, stamp: Stamp)
    requires WorldInv(h, max, w) && max >= 1 && Enabled(max, w, Api(c), stamp)
    ensures WorldInv(h, max, Next(h, max, w, Api(c), stamp))
  {
    hide WorldInv, DbInv, TablesOk, Perform, Admissible;
    Parts(h, max, w);
    var after := Next(h, max, w, Api(c), stamp);
    Parts(h, max, after);
    CommandDb(h, max, w.db, c, stamp);
    if c.RedriveCommand? {
      RedriveTables(h, max, w, c, stamp);
    } else {
      PerformMessages(h, w.db, c, stamp);
      TablesAdd(max, w.db.messages, after.db.messages, w.flights, w.tokens, w.claims, w.deliveries, w.failures, w.clock,
                stamp.at);
    }
  }

  lemma CommandDb(h: Hashes, max: nat, db: Db, c: Command, stamp: Stamp)
    requires DbInv(h, max, db) && max >= 1 && Admissible(db, c)
    ensures DbInv(h, max, Perform(h, db, c, stamp))
  {
    hide Inv, LogInv, EvidenceInv, Perform, Extends;
    PerformKeeps(h, max, db, c, stamp);
    PerformLog(h, max, db, c, stamp);
    PerformEvidence(h, max, db, c, stamp);
  }

  lemma RedriveTables(h: Hashes, max: nat, w: World, c: Command, stamp: Stamp)
    requires WorldInv(h, max, w) && c.RedriveCommand? && Enabled(max, w, Api(c), stamp)
    ensures var after := Next(h, max, w, Api(c), stamp);
            TablesOk(max, after.db.messages, after.flights, after.tokens, after.claims, after.deliveries,
                     after.failures, after.clock)
  {
    hide WorldInv, TablesOk, DbInv, Squeeze, LogEvent, Inv;
    Parts(h, max, w);
    assert Inv(max, w.db) by { DbHasInv(h, max, w.db); }
    TablesTick(max, w.db.messages, w.flights, w.tokens, w.claims, w.deliveries, w.failures, w.clock, stamp.at,
               w.tokens);
    hide FreshEvent, Redrive;
    var o := Redrive(h, w.db, c.actor, c.messageId, c.dispatchId, c.reason, stamp);
    if o.Done? {
      RedriveWrites(h, w.db, c.actor, c.messageId, c.dispatchId, c.reason, stamp);
      LogLonger(h, w.db.log, o.db.log);
      RedriveRelease(max, w, c.messageId, o.db.messages[c.messageId], stamp.at);
    }
  }

  /** What a re-drive does to its message, and that it leaves an event. */
  lemma RedriveWrites(h: Hashes, db: Db, actor: Actor, messageId: string, dispatchId: string, reason: string,
                      stamp: Stamp)
    requires Redrive(h, db, actor, messageId, dispatchId, reason, stamp).Done?
    ensures var after := Redrive(h, db, actor, messageId, dispatchId, reason, stamp).db;
            && messageId in db.messages && db.messages[messageId].status == Dead && messageId in after.messages
            && after.messages == db.messages[messageId := after.messages[messageId]]
            && SameMessage(db.messages[messageId], after.messages[messageId])
            && after.messages[messageId].lockedBy.None? && after.messages[messageId].status == Pending
            && after.messages[messageId].attempts == 0 && |after.log| == |db.log| + 1
  {
    hide Squeeze, LogEvent;
  }

  lemma DbHasInv(h: Hashes, max: nat, db: Db)
    requires DbInv(h, max, db)
    ensures Inv(max, db) && LogInv(h, db) && EvidenceInv(h, db)
  {
  }

  lemma LogLonger(h: Hashes, log: seq<AuditEvent<Fact>>, log': seq<AuditEvent<Fact>>)
    requires |log'| == |log| + 1
    ensures log' != log
  {
  }

  lemma RedriveRelease(max: nat, w: World, id: string, m: Message, now: int)
    requires Inv(max, w.db) && id in w.db.messages && w.db.messages[id].status == Dead
    requires TablesOk(max, w.db.messages, w.flights, w.tokens, w.claims, w.deliveries, w.failures, now)
    requires SameMessage(w.db.messages[id], m) && m.lockedBy.None? && m.status == Pending && m.attempts == 0
    ensures TablesOk(max, w.db.messages[id := m], w.flights, w.tokens, w.claims, w.deliveries, w.failures[id := 0], now)
  {
    hide Inv, TablesOk, FailuresOk;
    Behind(max, w.db, id);
    TablesHave(max, w, now);
    FailureCounted(max, w.db.messages, id, m, w.failures, 0);
    TablesRelease(max, w.db.messages, id, m, w.flights, w.flights, w.tokens, w.claims, w.deliveries, w.failures,
                  w.failures[id := 0], now);
  }

  // ----------------------------------------------------------------- workers

  lemma ClaimStepKeeps(h: Hashes, max: nat, w: World, cfg: WorkerConfig, token: string, stamp: Stamp)
    requires WorldInv(h, max, w) && Enabled(max, w, ClaimStep(cfg, token), stamp)
    ensures WorldInv(h, max, Next(h, max, w, ClaimStep(cfg, token), stamp))
  {
    hide WorldInv, TablesOk, DbInv, Claim, Claimable, FreshEvent, IsClaimable;
    Parts(h, max, w);
    var after := Next(h, max, w, ClaimStep(cfg, token), stamp);
    Parts(h, max, after);
    var r := Claim(w.db, cfg, token, stamp.at);
    ClaimWrites(w.db, cfg, token, stamp.at);
    ClaimDb(h, max, w.db, cfg, token, stamp.at);
    if r.claimed.None? {
      TablesTick(max, w.db.messages, w.flights, w.tokens, w.claims, w.deliveries, w.failures, w.clock, stamp.at,
                 w.tokens + {token});
    } else {
      assert MessagesOk(max, w.db.messages) by { DbHasInv(h, max, w.db); InvMessages(max, w.db); }
      hide MessagesOk;
      TablesClaim(max, w.db.messages, r.claimed.value.id, cfg, token, stamp.at, w.flights, w.tokens, w.claims,
                  w.deliveries, w.failures, w.clock);
    }
  }

  /** What a claim that finds something writes and returns. */
  lemma ClaimWrites(db: Db, cfg: WorkerConfig, token: string, now: int)
    ensures var r := Claim(db, cfg, token, now);
            if r.claimed.None? then r.db == db
            else
              var id := r.claimed.value.id;
              && id in db.messages && IsClaimable(db.messages[id], now)
              && var m := Leased(db.messages[id], cfg.lease, token, now);
                 && r.db.messages == db.messages[id := m]
                 && r.claimed.value == ClaimedMessage(id, m.aggregateId, m.key, m.payload, m.attempts, token)
  {
    hide Claimable;
  }

  lemma ClaimDb(h: Hashes, max: nat, db: Db, cfg: WorkerConfig, token: string, now: int)
    requires DbInv(h, max, db)
    ensures DbInv(h, max, Claim(db, cfg, token, now).db)
  {
    hide Inv, LogInv, EvidenceInv, Silent, Extends, Claim;
    var after := Claim(db, cfg, token, now).db;
    ClaimKeeps(max, db, cfg, token, now);
    ClaimSilent(max, db, cfg, token, now);
    SilentKeeps(h, db, after);
    SilentSettlements(db, cfg, token, now);
    EvidenceKept(h, db, after);
  }

  lemma SilentSettlements(db: Db, cfg: WorkerConfig, token: string, now: int)
    ensures Claim(db, cfg, token, now).db.settlements == db.settlements
  {
    hide Claimable;
  }

  lemma InvMessages(max: nat, db: Db)
    requires Inv(max, db)
    ensures MessagesOk(max, db.messages)
  {
  }

  lemma PublishStepKeeps(h: Hashes, max: nat, w: World, token: string, response: Response, reached: bool, stamp: Stamp)
    requires WorldInv(h, max, w) && Enabled(max, w, PublishStep(token, response, reached), stamp)
    ensures WorldInv(h, max, Next(h, max, w, PublishStep(token, response, reached), stamp))
  {
    hide WorldInv, TablesOk, DbInv, Decode;
    Parts(h, max, w);
    var after := Next(h, max, w, PublishStep(token, response, reached), stamp);
    Parts(h, max, after);
    TablesTick(max, w.db.messages, w.flights, w.tokens, w.claims, w.deliveries, w.failures, w.clock, stamp.at,
               w.tokens);
    TablesPublish(max, w.db.messages, w.flights, w.tokens, w.claims, w.deliveries, w.failures, stamp.at, token,
                  response, reached);
  }

  lemma CrashStepKeeps(h: Hashes, max: nat, w: World, token: string, stamp: Stamp)
    requires WorldInv(h, max, w) && Enabled(max, w, CrashStep(token), stamp)
    ensures WorldInv(h, max, Next(h, max, w, CrashStep(token), stamp))
  {
    hide WorldInv, TablesOk, DbInv;
    Parts(h, max, w);
    var after := Next(h, max, w, CrashStep(token), stamp);
    Parts(h, max, after);
    TablesTick(max, w.db.messages, w.flights, w.tokens, w.claims, w.deliveries, w.failures, w.clock, stamp.at,
               w.tokens);
    TablesDrop(max, w.db.messages, w.flights, w.tokens, w.claims, w.deliveries, w.failures, stamp.at, token);
  }

  lemma FlightFaithful(max: nat, w: World, token: string)
    requires FlightsOk(max, w.flights, w.db.messages, w.tokens, w.claims, w.clock) && token in w.flights
    ensures Faithful(w.db, w.flights[token].claimed) && w.flights[token].cfg.maxAttempts == max
    ensures w.flights[token].claimed.token == token
  {
    assert FlightOk(max, token, w.flights[token], w.db.messages, w.clock);
  }

  lemma FinalizeDb(h: Hashes, max: nat, db: Db, f: Flight, stamp: Stamp)
    requires DbInv(h, max, db) && Faithful(db, f.claimed) && f.cfg.maxAttempts == max && f.response.Some?
    ensures DbInv(h, max, Finalized(h, db, f, stamp))
    ensures !HoldsLease(db, f.claimed) ==> Finalized(h, db, f, stamp) == db
  {
    hide Inv, LogInv, EvidenceInv, Extends, Accounted, Silent, HoldsLease;
    var after := Finalized(h, db, f, stamp);
    match f.response.value
    case Ack(reference) =>
      SuccessKeeps(h, max, db, f.cfg, f.claimed, reference, stamp);
      SuccessSettlements(h, db, f.cfg, f.claimed, reference, stamp);
      hide RecordSuccess;
      if HoldsLease(db, f.claimed) {
        SuccessAccounted(h, max, db, f.cfg, f.claimed, reference, stamp);
        AccountedKeeps(h, db, after, DispatchPublished(f.claimed.aggregateId, f.claimed.id, reference,
                                                       db.messages[f.claimed.id].attempts));
      }
      EvidenceKept(h, db, after);
    case Raise(error) =>
      FailureKeeps(h, max, db, f.cfg, f.claimed, error, stamp);
      FailureSettlements(h, db, f.cfg, f.claimed, error, stamp);
      hide RecordFailure;
      if HoldsLease(db, f.claimed) {
        FailureAccounted(h, max, db, f.cfg, f.claimed, error, stamp);
        if db.messages[f.claimed.id].attempts < max { SilentKeeps(h, db, after); }
        else { AccountedKeeps(h, db, after, DeliveryFailed(f.claimed.aggregateId, f.claimed.id,
                                                           db.messages[f.claimed.id].attempts, ErrorText(error))); }
      }
      EvidenceKept(h, db, after);
  }

  lemma SuccessSettlements(h: Hashes, db: Db, cfg: WorkerConfig, c: ClaimedMessage, reference: string, stamp: Stamp)
    ensures var r := RecordSuccess(h, db, cfg, c, reference, stamp);
            r.Done? ==> r.db.settlements == db.settlements && (!HoldsLease(db, c) ==> r.db == db)
  {
  }

  lemma FailureSettlements(h: Hashes, db: Db, cfg: WorkerConfig, c: ClaimedMessage, error: string, stamp: Stamp)
    ensures var r := RecordFailure(h, db, cfg, c, error, stamp);
            r.db.settlements == db.settlements && (!HoldsLease(db, c) ==> r.db == db)
  {
    if HoldsLease(db, c) {
      FailureWrites(h, db, cfg, c, error, stamp);
      hide RecordFailure;
    }
  }

  /** A recorded failure writes the message, and perhaps a rejection on top. */
  lemma FailureWrites(h: Hashes, db: Db, cfg: WorkerConfig, c: ClaimedMessage, error: string, stamp: Stamp)
    requires HoldsLease(db, c)
    ensures var r := RecordFailure(h, db, cfg, c, error, stamp).db;
            var m := AfterFailure(db.messages[c.id], cfg, error, stamp.at);
            r == db.(messages := db.messages[c.id := m], dispatches := r.dispatches, reservations := r.reservations,
                     log := r.log)
  {
    hide ErrorText, LogEvent, AfterFailure, Rejection, SystemActor;
  }

  /** The row after a finalization that held the lease. */
  function FinalRow(m: Message, f: Flight, now: int): Message
    requires f.response.Some?
  {
    match f.response.value
    case Ack(reference) =>
      m.(status := Published, adapterReference := Some(reference), publishedAt := Some(now), leaseExpiresAt := None,
         lockedBy := None, lastError := None, updatedAt := now)
    case Raise(error) => AfterFailure(m, f.cfg, error, now)
  }

  lemma FinalizedMessages(h: Hashes, max: nat, db: Db, f: Flight, stamp: Stamp)
    requires Inv(max, db) && Faithful(db, f.claimed) && f.response.Some? && HoldsLease(db, f.claimed)
    ensures Finalized(h, db, f, stamp).messages
            == db.messages[f.claimed.id := FinalRow(db.messages[f.claimed.id], f, stamp.at)]
  {
    hide Inv, RecordSuccess, RecordFailure, AfterFailure, LeaseColumns, WithinBudget, Agree;
    Behind(max, db, f.claimed.id);
    match f.response.value
    case Ack(reference) => SuccessMessages(h, db, f.cfg, f.claimed, reference, stamp);
    case Raise(error) => FailureMessages(h, db, f.cfg, f.claimed, error, stamp);
  }

  lemma SuccessMessages(h: Hashes, db: Db, cfg: WorkerConfig, c: ClaimedMessage, reference: string, stamp: Stamp)
    requires HoldsLease(db, c) && c.aggregateId in db.dispatches
    requires db.dispatches[c.aggregateId].reservationId in db.reservations
    ensures var r := RecordSuccess(h, db, cfg, c, reference, stamp);
            r.Done? && r.db.messages == db.messages[c.id :=
              db.messages[c.id].(status := Published, adapterReference := Some(reference),
                                 publishedAt := Some(stamp.at), leaseExpiresAt := None, lockedBy := None,
                                 lastError := None, updatedAt := stamp.at)]
  {
    hide LogEvent;
  }

  lemma FailureMessages(h: Hashes, db: Db, cfg: WorkerConfig, c: ClaimedMessage, error: string, stamp: Stamp)
    requires HoldsLease(db, c)
    ensures RecordFailure(h, db, cfg, c, error, stamp).db.messages
            == db.messages[c.id := AfterFailure(db.messages[c.id], cfg, error, stamp.at)]
  {
    hide RecordFailure, AfterFailure;
    FailureWrites(h, db, cfg, c, error, stamp);
  }

  lemma FinalizeStepKeeps(h: Hashes, max: nat, w: World, token: string, stamp: Stamp)
    requires WorldInv(h, max, w) && Enabled(max, w, FinalizeStep(token), stamp)
    ensures WorldInv(h, max, Next(h, max, w, FinalizeStep(token), stamp))
  {
    hide WorldInv, TablesOk, DbInv, FlightsOk, Finalized, Faithful, HoldsLease, Inv, Fenced, LocksOk, FailuresOk,
      Reached, LogInv, EvidenceInv, FreshEvent, FinalRow;
    Parts(h, max, w);
    var f := w.flights[token];
    var after := Next(h, max, w, FinalizeStep(token), stamp);
    Parts(h, max, after);
    TablesHave(max, w, w.clock);
    FlightFaithful(max, w, token);
    DbHasInv(h, max, w.db);
    FinalizeDb(h, max, w.db, f, stamp);
    TablesTick(max, w.db.messages, w.flights, w.tokens, w.claims, w.deliveries, w.failures, w.clock, stamp.at,
               w.tokens);
    if HoldsLease(w.db, f.claimed) {
      FinalizedMessages(h, max, w.db, f, stamp);
      FinalizeRelease(max, w, token, stamp.at);
    } else {
      TablesDrop(max, w.db.messages, w.flights, w.tokens, w.claims, w.deliveries, w.failures, stamp.at, token);
    }
  }

  lemma FinalizeRelease(max: nat, w: World, token: string, now: int)
    requires Inv(max, w.db) && token in w.flights && w.flights[token].response.Some?
    requires HoldsLease(w.db, w.flights[token].claimed)
    requires w.flights[token].claimed.token == token
    requires TablesOk(max, w.db.messages, w.flights, w.tokens, w.claims, w.deliveries, w.failures, now)
    ensures
      var f := w.flights[token];
      var id := f.claimed.id;
      var m := FinalRow(w.db.messages[id], f, now);
      TablesOk(max, w.db.messages[id := m], w.flights - {token}, w.tokens, w.claims, w.deliveries,
               if f.response.value.Raise? then w.failures[id := FailuresOf(w, id) + 1] else w.failures, now)
  {
    hide Inv, TablesOk, FlightsOk, Fenced, LocksOk, FailuresOk, HasDelivery, ErrorText, RetryDelay;
    var f := w.flights[token];
    var id := f.claimed.id;
    var m := FinalRow(w.db.messages[id], f, now);
    var failures' := if f.response.value.Raise? then w.failures[id := FailuresOf(w, id) + 1] else w.failures;
    Behind(max, w.db, id);
    TablesHave(max, w, now);
    FinalCount(max, w, f, m, now);
    assert m.status == Published ==> HasDelivery(w.deliveries, id);
    hide Reached;
    TablesRelease(max, w.db.messages, id, m, w.flights, w.flights - {token}, w.tokens, w.claims, w.deliveries,
                  w.failures, failures', now);
  }

  lemma FinalCount(max: nat, w: World, f: Flight, m: Message, now: int)
    requires FailuresOk(max, w.failures, w.db.messages) && f.response.Some? && HoldsLease(w.db, f.claimed)
    requires w.db.messages[f.claimed.id].status == Processing
    requires m == FinalRow(w.db.messages[f.claimed.id], f, now)
    ensures FailuresOk(max, if f.response.value.Raise? then w.failures[f.claimed.id := FailuresOf(w, f.claimed.id) + 1]
                       else w.failures, w.db.messages[f.claimed.id := m])
  {
    hide ErrorText, RetryDelay;
    var count := FailuresOf(w, f.claimed.id);
    assert FailureCount(max, w.db.messages[f.claimed.id], count);
    if f.response.value.Raise? {
      FailureCounted(max, w.db.messages, f.claimed.id, m, w.failures, count + 1);
    } else {
      FailureCounted(max, w.db.messages, f.claimed.id, m, w.failures, count);
    }
  }

  // -------------------------------------------------------------------- runs

  lemma NextKeeps(h: Hashes, max: nat, w: World, step: Step, stamp: Stamp)
    requires WorldInv(h, max, w) && max >= 1 && Enabled(max, w, step, stamp)
    ensures WorldInv(h, max, Next(h, max, w, step, stamp))
  {
    hide WorldInv, Enabled, Next;
    match step
    case Api(c) => ApiKeeps(h, max, w, c, stamp);
    case ClaimStep(cfg, token) => ClaimStepKeeps(h, max, w, cfg, token, stamp);
    case PublishStep(token, response, reached) => PublishStepKeeps(h, max, w, token, response, reached, stamp);
    case FinalizeStep(token) => FinalizeStepKeeps(h, max, w, token, stamp);
    case CrashStep(token) => CrashStepKeeps(h, max, w, token, stamp);
  }

  /** The invariant holds at the end of every run, whatever is interleaved. */
  lemma {:induction false} RunKeeps(h: Hashes, max: nat, w: World, run: seq<Event>)
    requires WorldInv(h, max, w) && max >= 1 && Legal(h, max, w, run)
    ensures WorldInv(h, max, EndOf(h, max, w, run))
    decreases |run|
  {
    hide WorldInv, Enabled, Next;
    if run != [] {
      NextKeeps(h, max, w, run[0].step, run[0].stamp);
      RunKeeps(h, max, Next(h, max, w, run[0].step, run[0].stamp), run[1..]);
    }
  }
}
