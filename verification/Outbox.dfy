/** The outbox transactions: enqueue, claim, finalize and re-drive, and the health
    snapshot. */
module Outbox {
  import opened Wrappers
  import opened Text
  import opened Ordering
  import opened Signals
  import opened Domain

  const SECOND := 1_000_000

  datatype WorkerConfig = WorkerConfig(workerId: string, maxAttempts: nat, baseRetry: nat, maxRetry: nat, lease: nat)
  {
    /** The checks of `OutboxWorker.__init__`. */
    predicate Accepted() { maxAttempts >= 1 && 1 <= baseRetry <= maxRetry && lease >= 1 }
  }

  // ----------------------------------------------------------------- enqueue

  /** `enqueue_dispatch`, inside the caller's transaction. */
  function Enqueue(db: Db, signal: DispatchSignal, key: string, messageId: string, now: int): Outcome<string> {
    if Blank(key) then Failed(BlankOutboxKey)
    else if exists m :: m in db.messages && db.messages[m].topic == DISPATCH_TOPIC && db.messages[m].key == key then
      Failed(IntegrityError)
    else
      var message := Message(DISPATCH_TOPIC, signal.dispatchId, key, DispatchPayload(signal), Pending, 0,
                             now, None, None, None, None, None, now, now);
      Done(db.(messages := db.messages[messageId := message]), messageId)
  }

  // ------------------------------------------------------------------- claim

  datatype ClaimedMessage = ClaimedMessage(
    id: string, aggregateId: string, key: string, payload: Payload, attempts: nat, token: string)

  predicate LeaseExpired(m: Message, now: int) {
    m.status == Processing && m.leaseExpiresAt.Some? && m.leaseExpiresAt.value <= now
  }

  predicate IsClaimable(m: Message, now: int) {
    m.topic == DISPATCH_TOPIC && m.availableAt <= now && (m.status == Pending || LeaseExpired(m, now))
  }

  /** Neither published nor dead. */
  predicate Waits(m: Message) { m.status == Pending || m.status == Processing }

  function RankOf(id: string, m: Message): Rank { Rank(m.availableAt, m.createdAt, id) }

  function Claimable(db: Db, now: int): (s: set<Rank>)
    ensures forall r :: r in s ==>
              && r.id in db.messages && IsClaimable(db.messages[r.id], now)
              && r == RankOf(r.id, db.messages[r.id])
    ensures forall id :: id in db.messages && IsClaimable(db.messages[id], now) ==> RankOf(id, db.messages[id]) in s
  {
    set id | id in db.messages && IsClaimable(db.messages[id], now) :: RankOf(id, db.messages[id])
  }

  /** The row after a claim. */
  function Leased(m: Message, lease: nat, token: string, now: int): Message {
    m.(status := Processing, attempts := m.attempts + 1, lockedBy := Some(token),
       leaseExpiresAt := Some(now + lease * SECOND), updatedAt := now)
  }

  datatype ClaimResult = ClaimResult(db: Db, claimed: Option<ClaimedMessage>)

  /** `_claim_one` */
  function Claim(db: Db, cfg: WorkerConfig, token: string, now: int): (r: ClaimResult)
    ensures r.claimed.Some? ==> r.claimed.value.id in db.messages
  {
    var due := Claimable(db, now);
    if due == {} then ClaimResult(db, None)
    else
      var id := First(due).id;
      var m := Leased(db.messages[id], cfg.lease, token, now);
      ClaimResult(db.(messages := db.messages[id := m]),
                  Some(ClaimedMessage(id, m.aggregateId, m.key, m.payload, m.attempts, token)))
  }

  // ---------------------------------------------------------------- finalize

  predicate HoldsLease(db: Db, claimed: ClaimedMessage) {
    claimed.id in db.messages && db.messages[claimed.id].lockedBy == Some(claimed.token)
  }

  function SystemActor(cfg: WorkerConfig): string { "system:" + cfg.workerId }

  /** `_record_success`; failing means the `RuntimeError` for a missing aggregate. */
  function RecordSuccess(h: Hashes, db: Db, cfg: WorkerConfig, claimed: ClaimedMessage, reference: string, stamp: Stamp)
    : Outcome<bool>
  {
    if !HoldsLease(db, claimed) then Done(db, false)
    else if claimed.aggregateId !in db.dispatches then Failed(AggregateMissing)
    else
      var dispatch := db.dispatches[claimed.aggregateId];
      if dispatch.reservationId !in db.reservations then Failed(AggregateMissing)
      else
        var m := db.messages[claimed.id];
        var fact := DispatchPublished(claimed.aggregateId, claimed.id, reference, m.attempts);
        Done(db.(messages := db.messages[claimed.id :=
                   m.(status := Published, adapterReference := Some(reference), publishedAt := Some(stamp.at),
                      leaseExpiresAt := None, lockedBy := None, lastError := None, updatedAt := stamp.at)],
                 dispatches := db.dispatches[claimed.aggregateId := dispatch.(adapterReference := reference,
                       status := Issued)],
                 reservations := db.reservations[dispatch.reservationId :=
                   db.reservations[dispatch.reservationId].(status := Dispatched)],
                 log := LogEvent(h, db.log, fact, SystemActor(cfg), claimed.key, stamp)),
             true)
  }

  function Pow2(k: nat): (p: nat)
    ensures p > 0
  {
    if k == 0 then 1 else 2 * Pow2(k - 1)
  }

  /** `_retry_delay`, in seconds. */
  function RetryDelay(cfg: WorkerConfig, attempts: nat): nat {
    var delay := cfg.baseRetry * Pow2(if attempts >= 1 then attempts - 1 else 0);
    if delay < cfg.maxRetry then delay else cfg.maxRetry
  }

  function ErrorText(error: string): string { if |error| > 2000 then error[..2000] else error }

  /** The row after a failed delivery. */
  function AfterFailure(m: Message, cfg: WorkerConfig, error: string, now: int): Message {
    var released := m.(lastError := Some(ErrorText(error)), leaseExpiresAt := None, lockedBy := None, updatedAt := now);
    if m.attempts >= cfg.maxAttempts then released.(status := Dead)
    else released.(status := Pending, availableAt := now + RetryDelay(cfg, m.attempts) * SECOND)
  }

  /** `_record_failure`; the value says whether the message is dead. */
  function RecordFailure(h: Hashes, db: Db, cfg: WorkerConfig, claimed: ClaimedMessage, error: string, stamp: Stamp)
    : (r: Outcome<bool>)
    ensures r.Done?
  {
    if !HoldsLease(db, claimed) then Done(db, false)
    else
      var m := db.messages[claimed.id];
      var messages := db.messages[claimed.id := AfterFailure(m, cfg, error, stamp.at)];
      if m.attempts < cfg.maxAttempts then Done(db.(messages := messages), false)
      else
        var fact := DeliveryFailed(claimed.aggregateId, claimed.id, m.attempts, ErrorText(error));
        Done(Rejection(h, db.(messages := messages), claimed, fact, SystemActor(cfg), stamp), true)
  }

  /** A dead message rejects its dispatch and cancels the reservation. */
  function Rejection(h: Hashes, db: Db, claimed: ClaimedMessage, fact: Fact, actorId: string, stamp: Stamp): (r: Db)
    ensures r == db.(dispatches := r.dispatches, reservations := r.reservations, log := r.log)
  {
    if claimed.aggregateId !in db.dispatches then db
    else
      var dispatch := db.dispatches[claimed.aggregateId];
      var reservations :=
        if dispatch.reservationId !in db.reservations then db.reservations
        else db.reservations[dispatch.reservationId := db.reservations[dispatch.reservationId].(status := Cancelled)];
      db.(dispatches := db.dispatches[claimed.aggregateId := dispatch.(status := Rejected)],
          reservations := reservations,
          log := LogEvent(h, db.log, fact, actorId, claimed.key, stamp))
  }

  // ---------------------------------------------------------------- re-drive

  datatype RedriveAuthorization = RedriveAuthorization(
    messageId: string, dispatchId: string, key: string, previousAttempts: nat, status: OutboxStatus)

  /** `authorize_dead_dispatch_redrive` */
  function Redrive(h: Hashes, db: Db, actor: Actor, messageId: string, dispatchId: string, reason: string, stamp: Stamp)
    : Outcome<RedriveAuthorization>
  {
    if actor.role != RecoveryOperator then Failed(RoleForbidden)
    else if |Squeeze(reason)| < 12 then Failed(ReasonTooShort)
    else if messageId !in db.messages then Failed(MessageNotFound)
    else
      var m := db.messages[messageId];
      if m.topic != DISPATCH_TOPIC then Failed(OtherTopic)
      else if m.aggregateId != dispatchId then Failed(IdentifierMismatch)
      else if m.status != Dead then Failed(MessageNotDead)
      else if dispatchId !in db.dispatches then Failed(DispatchNotFound)
      else
        var dispatch := db.dispatches[dispatchId];
        if dispatch.reservationId !in db.reservations then Failed(ReservationNotFound)
        else
          var reservation := db.reservations[dispatch.reservationId];
          if dispatch.status != Rejected then Failed(DispatchNotRejected)
          else if reservation.status != Cancelled then Failed(ReservationNotCancelled)
          else
            var previousError := if m.lastError.Some? then m.lastError.value else "";
            var fact := RedriveAuthorized(dispatchId, messageId, Squeeze(reason), m.attempts, h.text(previousError));
            Done(db.(messages := db.messages[messageId :=
                       m.(status := Pending, attempts := 0, availableAt := stamp.at, leaseExpiresAt := None,
                          lockedBy := None, adapterReference := None, lastError := None, publishedAt := None,
                          updatedAt := stamp.at)],
                     dispatches := db.dispatches[dispatchId :=
                       dispatch.(status := Queued, adapterReference := "outbox:" + messageId)],
                     reservations := db.reservations[dispatch.reservationId := reservation.(status := DispatchPending)],
                     log := LogEvent(h, db.log, fact, actor.actorId, m.key, stamp)),
                 RedriveAuthorization(messageId, dispatchId, m.key, m.attempts, Pending))
  }

  // ---------------------------------------------------------------- snapshot

  function WithStatus(db: Db, status: OutboxStatus): set<string> {
    set id | id in db.messages && db.messages[id].status == status
  }

  /** Ages are in microseconds. */
  datatype OutboxSnapshot = OutboxSnapshot(
    pending: nat, processing: nat, published: nat, dead: nat, due: nat, oldestPendingAge: Option<nat>)

  function Due(db: Db, now: int): set<string> {
    set id | id in db.messages && db.messages[id].status == Pending && db.messages[id].availableAt <= now
  }

  /** `outbox_snapshot` */
  function Snapshot(db: Db, now: int): OutboxSnapshot {
    var pending := set id | id in db.messages && db.messages[id].status == Pending ::
        Rank(db.messages[id].createdAt, 0, id);
    OutboxSnapshot(|WithStatus(db, Pending)|, |WithStatus(db, Processing)|, |WithStatus(db, Published)|,
                   |WithStatus(db, Dead)|, |Due(db, now)|, if pending == {} then None
                   else
                     var age := now - First(pending).major;
                     Some(if age > 0 then age else 0))
  }
}
