/** The outbox worker and the re-drive operation over a mutable database, proved against
    the functions of `Outbox` and `Batch`. */
module Worker {
  import opened Wrappers
  import opened Text
  import opened Ordering
  import opened Signals
  import opened Domain
  import opened Outbox
  import opened Machine
  import opened Publishers
  import opened Batch
  import opened Store
  import opened ClaimOrder

  /** The clock and the sources of new ids, as successive readings. */
  class Sources {
    const times: nat -> int
    const tokens: nat -> string
    const eventIds: nat -> string
    var ticks: nat
    var claims: nat

    constructor (times: nat -> int, tokens: nat -> string, eventIds: nat -> string)
      ensures this.times == times && this.tokens == tokens && this.eventIds == eventIds && ticks == 0 && claims == 0
    {
      this.times, this.tokens, this.eventIds := times, tokens, eventIds;
      ticks, claims := 0, 0;
    }

    method Now() returns (t: int)
      modifies this`ticks
      ensures t == times(old(ticks)) && ticks == old(ticks) + 1
    {
      t := times(ticks);
      ticks := ticks + 1;
    }

    method NewToken() returns (s: string)
      modifies this`claims
      ensures s == tokens(old(claims)) && claims == old(claims) + 1
    {
      s := tokens(claims);
      claims := claims + 1;
    }
  }

  /** Writes a message, its dispatch and the status of the reservation behind them. */
  method MoveRows(session: Database, id: string, m: Message, dispatchId: string, d: Dispatch, status: ReservationStatus)
    requires d.reservationId in session.reservations
    modifies session`messages, session`dispatches, session`reservations
    ensures session.messages == old(session.messages)[id := m]
    ensures session.dispatches == old(session.dispatches)[dispatchId := d]
    ensures session.reservations
            == old(session.reservations)[d.reservationId :=
              old(session.reservations)[d.reservationId].(status := status)]
  {
    session.messages := session.messages[id := m];
    session.dispatches := session.dispatches[dispatchId := d];
    session.reservations := session.reservations[d.reservationId :=
      session.reservations[d.reservationId].(status := status)];
  }

  class OutboxWorker {
    const session: Database
    const publisher: FaultInjectingDispatchPublisher
    const sources: Sources
    const h: Hashes
    const cfg: WorkerConfig
    const refusal: DecodeError -> string

    constructor (session: Database, publisher: FaultInjectingDispatchPublisher, sources: Sources, h: Hashes,
                 cfg: WorkerConfig, refusal: DecodeError -> string)
      requires cfg.Accepted()
      ensures this.session == session && this.publisher == publisher && this.sources == sources && this.h == h
      ensures this.cfg == cfg
      ensures this.refusal == refusal
    {
      this.session, this.publisher, this.sources, this.h, this.cfg := session, publisher, sources, h, cfg;
      this.refusal := refusal;
    }

    /** What the worker draws on, as the specification sees it. */
    function Surroundings(): Env {
      Env(sources.times, sources.tokens, sources.eventIds,
          (k: nat, signal, key) => Injected(publisher.failuresBeforeSuccess, k + 1, publisher.delegate, signal, key),
          refusal)
    }

    function Position(): Cursor
      reads sources, publisher
    {
      Cursor(sources.ticks, sources.claims, publisher.attempts)
    }

    /** `_claim_one` */
    method ClaimOne() returns (claimed: Option<ClaimedMessage>)
      modifies session`messages, sources
      ensures var r := Claim(old(session.View()), cfg, cfg.workerId + ":" + sources.tokens(old(sources.claims)),
                             sources.times(old(sources.ticks)));
              claimed == r.claimed && session.View() == r.db
      ensures var now := sources.times(old(sources.ticks));
              && (claimed.None? <==> forall x :: x in old(session.messages) ==> !Ready(old(session.messages)[x], now))
              && (claimed.Some? ==> Earliest(old(session.messages), claimed.value.id, now))
      ensures sources.ticks == old(sources.ticks) + 1
      ensures sources.claims == if claimed.Some? then old(sources.claims) + 1 else old(sources.claims)
    {
      hide Claimable, IsClaimable, Leased, Ready, Earliest;
      var now := sources.Now();
      FirstIsEarliest(session.View(), now);
      var due := Claimable(session.View(), now);
      if due == {} { return None; }
      var id := First(due).id;
      var uuid := sources.NewToken();
      var message := LeaseTo(id, cfg.workerId + ":" + uuid, now);
      return Some(ClaimedMessage(id, message.aggregateId, message.key, message.payload, message.attempts,
                                 cfg.workerId + ":" + uuid));
    }

    /** Marks a message as being processed under a token. */
    method LeaseTo(id: string, token: string, now: int) returns (message: Message)
      requires id in session.messages
      modifies session`messages
      ensures message == Leased(old(session.messages)[id], cfg.lease, token, now)
      ensures session.messages == old(session.messages)[id := message]
    {
      message := session.messages[id];
      message := message.(status := Processing, attempts := message.attempts + 1);
      message := message.(lockedBy := Some(token), leaseExpiresAt := Some(now + cfg.lease * SECOND), updatedAt := now);
      session.messages := session.messages[id := message];
    }

    /** `_record_success` */
    method FinishSuccess(claimed: ClaimedMessage, reference: string) returns (r: Result<bool, Error>)
      modifies session, sources`ticks
      ensures var o := RecordSuccess(h, old(session.View()), cfg, claimed, reference,
                                     Stamp(sources.eventIds(|old(session.log)|), sources.times(old(sources.ticks))));
              r == Answer(o) && session.View() == Committed(o, old(session.View()))
      ensures sources.ticks == old(sources.ticks) + 1
    {
      hide LogEvent, SystemActor;
      var now := sources.Now();
      if claimed.id !in session.messages || session.messages[claimed.id].lockedBy != Some(claimed.token) {
        return Success(false);
      }
      if claimed.aggregateId !in session.dispatches { return Failure(AggregateMissing); }
      var dispatch := session.dispatches[claimed.aggregateId];
      if dispatch.reservationId !in session.reservations { return Failure(AggregateMissing); }
      PublishRows(claimed, dispatch, reference, now);
      return Success(true);
    }

    /** The writes of a recorded success. */
    method PublishRows(claimed: ClaimedMessage, dispatch: Dispatch, reference: string, now: int)
      requires claimed.id in session.messages && dispatch.reservationId in session.reservations
      modifies session`messages, session`dispatches, session`reservations, session`log
      ensures var m := old(session.messages)[claimed.id];
              && session.messages == old(session.messages)[claimed.id :=
                   m.(status := Published, adapterReference := Some(reference), publishedAt := Some(now),
                      leaseExpiresAt := None, lockedBy := None, lastError := None, updatedAt := now)]
              && session.dispatches == old(session.dispatches)[claimed.aggregateId :=
                   dispatch.(adapterReference := reference, status := Issued)]
              && session.reservations == old(session.reservations)[dispatch.reservationId :=
                   old(session.reservations)[dispatch.reservationId].(status := Dispatched)]
              && session.log == LogEvent(h, old(session.log),
                                         DispatchPublished(claimed.aggregateId, claimed.id, reference, m.attempts),
                                         SystemActor(cfg), claimed.key,
                                         Stamp(sources.eventIds(|old(session.log)|), now))
    {
      hide LogEvent, SystemActor;
      var message := session.messages[claimed.id];
      MoveRows(session, claimed.id,
               message.(status := Published, adapterReference := Some(reference), publishedAt := Some(now),
                        leaseExpiresAt := None, lockedBy := None, lastError := None, updatedAt := now),
               claimed.aggregateId, dispatch.(adapterReference := reference, status := Issued), Dispatched);
      var fact := DispatchPublished(claimed.aggregateId, claimed.id, reference, message.attempts);
      var _ := session.AppendEvent(h, fact, SystemActor(cfg), claimed.key, Stamp(sources.eventIds(|session.log|), now));
    }

    /** `_record_failure` */
    method FinishFailure(claimed: ClaimedMessage, error: string) returns (dead: bool)
      modifies session, sources`ticks
      ensures var o := RecordFailure(h, old(session.View()), cfg, claimed, error,
                                     Stamp(sources.eventIds(|old(session.log)|), sources.times(old(sources.ticks))));
              dead == o.value && session.View() == o.db
      ensures sources.ticks == old(sources.ticks) + 1
    {
      hide ErrorText, RetryDelay, Rejection;
      var now := sources.Now();
      if claimed.id !in session.messages || session.messages[claimed.id].lockedBy
          != Some(claimed.token) { return false; }
      var message := session.messages[claimed.id];
      message := message.(lastError := Some(ErrorText(error)), leaseExpiresAt := None, lockedBy := None,
                          updatedAt := now);
      if message.attempts >= cfg.maxAttempts {
        message := message.(status := Dead);
        session.messages := session.messages[claimed.id := message];
        RejectDispatch(claimed, message.attempts, error, now);
        return true;
      }
      session.messages := session.messages[claimed.id :=
        message.(status := Pending, availableAt := now + RetryDelay(cfg, message.attempts) * SECOND)];
      return false;
    }

    /** A dead message rejects its dispatch and cancels the reservation. */
    method RejectDispatch(claimed: ClaimedMessage, attempts: nat, error: string, now: int)
      modifies session`dispatches, session`reservations, session`log
      ensures session.View()
              == Rejection(h, old(session.View()), claimed,
                           DeliveryFailed(claimed.aggregateId, claimed.id, attempts, ErrorText(error)),
                               SystemActor(cfg), Stamp(sources.eventIds(|old(session.log)|), now))
    {
      hide LogEvent, ErrorText;
      if claimed.aggregateId !in session.dispatches { return; }
      var dispatch := session.dispatches[claimed.aggregateId];
      session.dispatches := session.dispatches[claimed.aggregateId := dispatch.(status := Rejected)];
      if dispatch.reservationId in session.reservations {
        session.reservations := session.reservations[dispatch.reservationId :=
          session.reservations[dispatch.reservationId].(status := Cancelled)];
      }
      var _ := session.AppendEvent(h, DeliveryFailed(claimed.aggregateId, claimed.id, attempts, ErrorText(error)),
                                   SystemActor(cfg), claimed.key, Stamp(sources.eventIds(|session.log|), now));
    }

    /** Decoding and publishing, with the exception handler of `run_once` around them. */
    method TryPublish(claimed: ClaimedMessage) returns (response: Response)
      modifies publisher
      ensures response == Attempted(Surroundings(), old(publisher.attempts), claimed)
      ensures publisher.attempts == CallsAfter(old(publisher.attempts), claimed)
    {
      hide Decode;
      var signal := Decode(claimed.payload);
      if signal.Failure? { return Raise(refusal(signal.error)); }
      response := publisher.Publish(signal.value, claimed.key);
    }

    /** The body of the loop after a claim: publish, then record the outcome. */
    method Handle(claimed: ClaimedMessage, ghost names: seq<string>, counts: OutboxRunResult)
      returns (counts': OutboxRunResult, end: RoundEnd)
      modifies session, publisher, sources`ticks
      ensures var db, at := old(session.View()), old(Position());
              var (q, e) := Conclude(h, cfg, Progress(db,
                                                      Cursor(at.ticks + 1, at.claims, CallsAfter(at.calls, claimed)),
                                                          counts, names),
                                     claimed, Attempted(Surroundings(), at.calls, claimed),
                                     Stamp(sources.eventIds(|db.log|), sources.times(at.ticks)));
              && session.View() == q.db && Position() == q.cursor && counts' == q.result && q.claimed == names
              && end == e && !end.Idle?
    {
      hide Attempted, RecordSuccess, RecordFailure, CallsAfter;
      var response := TryPublish(claimed);
      match response
      case Raise(error) =>
        var terminal := FinishFailure(claimed, error);
        if terminal { counts' := counts.(dead := counts.dead + 1); }
            else { counts' := counts.(retried := counts.retried + 1); }
        end := Handled;
      case Ack(reference) =>
        var done := FinishSuccess(claimed, reference);
        if done.Failure? { return counts, Raised(done.error); }
        counts' := if done.value then counts.(published := counts.published + 1) else counts;
        end := Handled;
    }

    /** `run_once` */
    method RunOnce(limit: int) returns (r: Result<OutboxRunResult, Error>)
      modifies session, publisher, sources
      ensures limit < 1 ==>
                && r == Failure(InvalidLimit) && session.View() == old(session.View())
                && Position() == old(Position())
      ensures limit >= 1 ==>
                var (q, end) := Batch.RunOnce(h, cfg, Surroundings(), Begin(old(session.View()), old(Position())),
                                              limit);
                && session.View() == q.db && Position() == q.cursor
                && r == if end.Raised? then Failure(end.error) else Success(q.result)
    {
      hide Attempted, Conclude, CallsAfter, Round, Batch.RunOnce, Claim;
      if limit < 1 { return Failure(InvalidLimit); }
      var counts := OutboxRunResult(0, 0, 0, 0);
      ghost var names := [];
      ghost var start := Begin(session.View(), Position());
      var i := 0;
      while i < limit
        invariant 0 <= i <= limit
        invariant Batch.RunOnce(h, cfg, Surroundings(), start, limit)
                  == Batch.RunOnce(h, cfg, Surroundings(), Progress(session.View(), Position(), counts, names),
                                   limit - i)
      {
        RunOnceUnfolds(h, cfg, Surroundings(), Progress(session.View(), Position(), counts, names), limit - i);
        var claimed := ClaimOne();
        if claimed.None? { break; }
        counts := counts.(attempted := counts.attempted + 1);
        names := names + [claimed.value.id];
        var end;
        counts, end := Handle(claimed.value, names, counts);
        if end.Raised? { return Failure(end.error); }
        i := i + 1;
      }
      if i == limit { RunOnceEnds(h, cfg, Surroundings(), Progress(session.View(), Position(), counts, names)); }
      return Success(counts);
    }
  }

  /** `OutboxWorker.__init__` refuses settings out of range. */
  method NewWorker(session: Database, publisher: FaultInjectingDispatchPublisher, sources: Sources, h: Hashes,
                   workerId: string, maxAttempts: int, baseRetry: int, maxRetry: int, lease: int,
                       refusal: DecodeError -> string)
    returns (r: Result<OutboxWorker, Error>)
    ensures r.Success? <==> maxAttempts >= 1 && 1 <= baseRetry <= maxRetry && lease >= 1
    ensures r.Success? ==>
              var w := r.value;
              && w.session == session && w.publisher == publisher && w.sources == sources
              && w.cfg == WorkerConfig(workerId, maxAttempts, baseRetry, maxRetry, lease) && w.cfg.Accepted()
    ensures r.Failure? ==> r.error == InvalidConfiguration
  {
    if maxAttempts < 1 { return Failure(InvalidConfiguration); }
    if baseRetry < 1 || maxRetry < baseRetry { return Failure(InvalidConfiguration); }
    if lease < 1 { return Failure(InvalidConfiguration); }
    var worker := new OutboxWorker(session, publisher, sources, h,
                                   WorkerConfig(workerId, maxAttempts, baseRetry, maxRetry, lease), refusal);
    return Success(worker);
  }

  lemma RunOnceEnds(h: Hashes, cfg: WorkerConfig, env: Env, p: Progress)
    ensures Batch.RunOnce(h, cfg, env, p, 0) == (p, Handled)
  {
  }

  /** One pass of the loop, taken apart. */
  lemma RunOnceUnfolds(h: Hashes, cfg: WorkerConfig, env: Env, p: Progress, limit: nat)
    requires limit > 0
    ensures var r := Claim(p.db, cfg, cfg.workerId + ":" + env.tokens(p.cursor.claims), env.times(p.cursor.ticks));
            if r.claimed.None? then
              r.db == p.db && Batch.RunOnce(h, cfg, env, p, limit)
                  == (p.(cursor := p.cursor.(ticks := p.cursor.ticks + 1)), Idle)
            else
              var claimed := r.claimed.value;
              var (next, end) :=
                Conclude(h, cfg,
                         Progress(r.db, Cursor(p.cursor.ticks + 2, p.cursor.claims + 1,
                                               CallsAfter(p.cursor.calls, claimed)),
                                  p.result.(attempted := p.result.attempted + 1), p.claimed + [claimed.id]),
                         claimed, Attempted(env, p.cursor.calls, claimed),
                             Stamp(env.eventIds(|r.db.log|), env.times(p.cursor.ticks + 1)));
              Batch.RunOnce(h, cfg, env, p, limit) == if end.Handled? then Batch.RunOnce(h, cfg, env, next, limit - 1)
                  else (next, end)
  {
    hide Conclude, Attempted, CallsAfter, Claimable;
  }

  /** `authorize_dead_dispatch_redrive` */
  method AuthorizeDeadDispatchRedrive(session: Database, h: Hashes, actor: Actor, messageId: string, dispatchId: string,
                                      reason: string, stamp: Stamp)
    returns (r: Result<RedriveAuthorization, Error>)
    modifies session
    ensures var o := Redrive(h, old(session.View()), actor, messageId, dispatchId, reason, stamp);
            r == Answer(o) && session.View() == Committed(o, old(session.View()))
  {
    hide LogEvent, Squeeze;
    if actor.role != RecoveryOperator { return Failure(RoleForbidden); }
    var normalizedReason := Squeeze(reason);
    if |normalizedReason| < 12 { return Failure(ReasonTooShort); }
    if messageId !in session.messages { return Failure(MessageNotFound); }
    var message := session.messages[messageId];
    if message.topic != DISPATCH_TOPIC { return Failure(OtherTopic); }
    if message.aggregateId != dispatchId { return Failure(IdentifierMismatch); }
    if message.status != Dead { return Failure(MessageNotDead); }
    if dispatchId !in session.dispatches { return Failure(DispatchNotFound); }
    var dispatch := session.dispatches[dispatchId];
    if dispatch.reservationId !in session.reservations { return Failure(ReservationNotFound); }
    var reservation := session.reservations[dispatch.reservationId];
    if dispatch.status != Rejected { return Failure(DispatchNotRejected); }
    if reservation.status != Cancelled { return Failure(ReservationNotCancelled); }
    Rearm(session, h, actor, messageId, normalizedReason, stamp);
    return Success(RedriveAuthorization(messageId, dispatchId, message.key, message.attempts, Pending));
  }

  /** The writes of a re-drive. */
  method Rearm(session: Database, h: Hashes, actor: Actor, messageId: string, reason: string, stamp: Stamp)
    requires messageId in session.messages && session.messages[messageId].aggregateId in session.dispatches
    requires session.dispatches[session.messages[messageId].aggregateId].reservationId in session.reservations
    modifies session`messages, session`dispatches, session`reservations, session`log
    ensures var m := old(session.messages)[messageId];
            var d := old(session.dispatches)[m.aggregateId];
            var error := if m.lastError.Some? then m.lastError.value else "";
            && session.messages == old(session.messages)[messageId :=
                 m.(status := Pending, attempts := 0, availableAt := stamp.at, leaseExpiresAt := None, lockedBy := None,
                    adapterReference := None, lastError := None, publishedAt := None, updatedAt := stamp.at)]
            && session.dispatches == old(session.dispatches)[m.aggregateId :=
                 d.(status := Queued, adapterReference := "outbox:" + messageId)]
            && session.reservations == old(session.reservations)[d.reservationId :=
                 old(session.reservations)[d.reservationId].(status := DispatchPending)]
            && session.log == LogEvent(h, old(session.log),
                                       RedriveAuthorized(m.aggregateId, messageId, reason, m.attempts, h.text(error)),
                                       actor.actorId, m.key, stamp)
  {
    hide LogEvent;
    var message := session.messages[messageId];
    var dispatch := session.dispatches[message.aggregateId];
    var previousError := if message.lastError.Some? then message.lastError.value else "";
    MoveRows(session, messageId,
             message.(status := Pending, attempts := 0, availableAt := stamp.at, leaseExpiresAt := None,
                      lockedBy := None, adapterReference := None, lastError := None, publishedAt := None,
                      updatedAt := stamp.at),
             message.aggregateId, dispatch.(status := Queued, adapterReference := "outbox:" + messageId),
             DispatchPending);
    var fact := RedriveAuthorized(message.aggregateId, messageId, reason, message.attempts, h.text(previousError));
    var _ := session.AppendEvent(h, fact, actor.actorId, message.key, stamp);
  }
}
