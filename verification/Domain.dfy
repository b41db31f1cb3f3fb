/** Vocabulary and rows of the coordination database. Decimal columns hold millionths,
    datetime columns hold UTC instants in microseconds. */
module Domain {
  import opened Wrappers
  import opened Text
  import opened Decimals
  import opened Signals
  import opened AuditChain

  // -------------------------------------------------------------- vocabulary

  datatype AssetType = Battery | EvCharger | HeatPump | IndustrialLoad
  datatype AssetStatus = Active | Suspended
  datatype FlexDirection = Increase | Decrease
  datatype OfferStatus = Open | OfferReserved | OfferCancelled
  datatype ReservationStatus = Reserved | DispatchPending | Dispatched | ReservationCompleted | Cancelled
  datatype DispatchStatus = Queued | Issued | DispatchCompleted | Rejected
  datatype OutboxStatus = Pending | Processing | Published | Dead

  datatype ActorRole = AssetOwner | MarketOperator | SettlementAnalyst | Auditor | RecoveryOperator | System

  datatype Actor = Actor(actorId: string, role: ActorRole)

  datatype Error =
    | RoleForbidden | NotAssetOwner | NotSeparateActor
    | AssetNotFound | OfferNotFound | ReservationNotFound | DispatchNotFound | MessageNotFound | SettlementNotFound
    | DuplicateExternalId | AssetSuspended | OfferExceedsCapacity
    | OfferNotOpen | ReservationExceedsOffer
    | ReservationNotReserved | DispatchExceedsReservation | DispatchOutsideOffer
    | ReservationNotDispatched | DispatchNotIssued | NoReadings | ArithmeticOverflow
    | BlankIdempotencyKey | KeyReusedForOtherRequest | MissingResource
    | BlankOutboxKey
    | ReasonTooShort | OtherTopic | IdentifierMismatch | MessageNotDead | DispatchNotRejected | ReservationNotCancelled
    | AggregateMissing
    | IntegrityError
    | InvalidConfiguration | InvalidLimit

  // ---------------------------------------------------------------- commands

  datatype AssetCreate = AssetCreate(
    externalId: string, ownerId: string, assetType: AssetType, capacity: Decimal, locationCode: string)
  {
    predicate Accepted() { Numeric18(capacity) && Micro(capacity) > 0 }
  }

  datatype OfferCreate = OfferCreate(
    assetId: string, windowStart: Zoned, windowEnd: Zoned, direction: FlexDirection, quantity: Decimal, price: Decimal)
  {
    predicate Accepted() {
      && Numeric18(quantity) && Micro(quantity) > 0 && Numeric18(price)
      && windowStart.instant < windowEnd.instant
    }
  }

  datatype ReservationCreate = ReservationCreate(quantity: Decimal)
  {
    predicate Accepted() { Numeric18(quantity) && Micro(quantity) > 0 }
  }

  datatype DispatchCreate = DispatchCreate(target: Decimal, startsAt: Zoned, endsAt: Zoned)
  {
    predicate Accepted() {
      Numeric18(target) && Micro(target) > 0 && startsAt.instant < endsAt.instant
    }
  }

  datatype MeterReadingCreate = MeterReadingCreate(
    assetId: string, intervalStart: Zoned, intervalEnd: Zoned, energy: Decimal, source: string)
  {
    predicate Accepted() { Numeric18(energy) && intervalStart.instant < intervalEnd.instant }
  }

  /** What the idempotency records fingerprint. */
  datatype Request =
    | ReserveRequest(offerId: string, quantity: Decimal, actorId: string)
    | DispatchRequest(reservationId: string, target: Decimal, startsAt: Zoned, endsAt: Zoned, actorId: string)
    | SettleRequest(reservationId: string, actorId: string)

  datatype Operation = ReserveOffer | IssueDispatch | SettleReservation

  // -------------------------------------------------------------------- rows

  datatype Asset = Asset(
    externalId: string, ownerId: string, assetType: AssetType, capacity: nat, locationCode: string, status: AssetStatus)

  datatype Offer = Offer(
    assetId: string, windowStart: int, windowEnd: int, direction: FlexDirection, quantity: nat, price: nat,
    status: OfferStatus, createdBy: string)

  datatype Reservation = Reservation(
    offerId: string, quantity: nat, status: ReservationStatus, requestedBy: string)

  datatype Dispatch = Dispatch(
    reservationId: string, target: nat, startsAt: int, endsAt: int, status: DispatchStatus, issuedBy: string,
    adapterReference: string)

  datatype Reading = Reading(
    assetId: string, intervalStart: int, intervalEnd: int, energy: nat, source: string, fingerprint: string,
    recordedBy: string)

  datatype Manifest = Manifest(
    settlementId: string, reservationId: string, offerId: string, assetId: string, dispatchId: string,
    readingIds: seq<string>, delivered: Decimal, price: Decimal, amount: Decimal,
    auditEventId: string, auditHeadHash: string)

  datatype Settlement = Settlement(
    reservationId: string, delivered: nat, price: nat, amount: nat, manifest: Manifest, evidenceHash: string,
    settledBy: string)

  datatype IdempotencyRecord = IdempotencyRecord(requestHash: string, resourceId: string)

  const DISPATCH_TOPIC := "dispatch.publish"

  datatype Message = Message(
    topic: string, aggregateId: string, key: string, payload: Payload, status: OutboxStatus, attempts: nat,
    availableAt: int, leaseExpiresAt: Option<int>, lockedBy: Option<string>,
    adapterReference: Option<string>, lastError: Option<string>, publishedAt: Option<int>,
    createdAt: int, updatedAt: int)

  // ------------------------------------------------------------- audit facts

  /** The payload of an audit event together with its type and aggregate. */
  datatype Fact =
    | AssetRegistered(assetId: string, externalId: string, assetType: AssetType, capacity: Decimal,
                      locationCode: string)
    | OfferCreated(offerId: string, assetId: string, direction: FlexDirection, quantity: Decimal, price: Decimal,
                   windowStart: Zoned, windowEnd: Zoned)
    | OfferTaken(reservationId: string, offerId: string, quantity: Decimal)
    | DispatchQueued(dispatchId: string, reservationId: string, target: Decimal, startsAt: Zoned, endsAt: Zoned,
                     messageId: string)
    | DispatchPublished(dispatchId: string, messageId: string, reference: string, attempt: nat)
    | DeliveryFailed(dispatchId: string, messageId: string, attempts: nat, error: string)
    | RedriveAuthorized(dispatchId: string, messageId: string, reason: string, previousAttempts: nat,
                        previousErrorHash: string)
    | ReadingRecorded(readingId: string, assetId: string, intervalStart: Zoned, intervalEnd: Zoned, energy: Decimal,
                      source: string, fingerprint: string)
    | SettlementCalculated(settlementId: string, reservationId: string, dispatchId: string, readingIds: seq<string>,
                           delivered: Decimal, price: Decimal, amount: Decimal)

  function AggregateType(f: Fact): string {
    match f
    case AssetRegistered(_, _, _, _, _) => "asset"
    case OfferCreated(_, _, _, _, _, _, _) => "offer"
    case OfferTaken(_, _, _) => "reservation"
    case ReadingRecorded(_, _, _, _, _, _, _) => "meter_reading"
    case SettlementCalculated(_, _, _, _, _, _, _) => "settlement"
    case _ => "dispatch"
  }

  function AggregateId(f: Fact): string {
    match f
    case AssetRegistered(id, _, _, _, _) => id
    case OfferCreated(id, _, _, _, _, _, _) => id
    case OfferTaken(id, _, _) => id
    case DispatchQueued(id, _, _, _, _, _) => id
    case DispatchPublished(id, _, _, _) => id
    case DeliveryFailed(id, _, _, _) => id
    case RedriveAuthorized(id, _, _, _, _) => id
    case ReadingRecorded(id, _, _, _, _, _, _) => id
    case SettlementCalculated(id, _, _, _, _, _, _) => id
  }

  function EventType(f: Fact): string {
    match f
    case AssetRegistered(_, _, _, _, _) => "asset.registered"
    case OfferCreated(_, _, _, _, _, _, _) => "offer.created"
    case OfferTaken(_, _, _) => "offer.reserved"
    case DispatchQueued(_, _, _, _, _, _) => "dispatch.queued"
    case DispatchPublished(_, _, _, _) => "dispatch.published"
    case DeliveryFailed(_, _, _, _) => "dispatch.delivery_failed"
    case RedriveAuthorized(_, _, _, _, _) => "dispatch.redrive_authorized"
    case ReadingRecorded(_, _, _, _, _, _, _) => "meter_reading.recorded"
    case SettlementCalculated(_, _, _, _, _, _, _) => "settlement.calculated"
  }

  // ---------------------------------------------------------------- database

  datatype Db = Db(
    assets: map<string, Asset>,
    offers: map<string, Offer>,
    reservations: map<string, Reservation>,
    dispatches: map<string, Dispatch>,
    readings: map<string, Reading>,
    settlements: map<string, Settlement>,
    idempotency: map<(Operation, string), IdempotencyRecord>,
    messages: map<string, Message>,
    log: seq<AuditEvent<Fact>>)

  const EMPTY_DB := Db(map[], map[], map[], map[], map[], map[], map[], map[], [])

  /** The hash functions of the program: `sha256` over the canonical text of an event's
      material, a request, a meter command or a manifest, and over plain text. */
  datatype Hashes = Hashes(
    event: Material<Fact> -> string,
    request: Request -> string,
    reading: MeterReadingCreate -> string,
    manifest: Manifest -> string,
    text: string -> string)

  /** The identifier and clock reading that an audit event of a transaction gets. */
  datatype Stamp = Stamp(eventId: string, at: int)

  /** A transaction commits with a value, or raises and leaves the database as it was. */
  datatype Outcome<+T> = Done(db: Db, value: T) | Failed(error: Error)

  /** A committed command changes the database; a raised error leaves it as it was. */
  function Committed<T>(o: Outcome<T>, db: Db): Db { if o.Done? then o.db else db }

  /** `append_event` on the log of a transaction. */
  function LogEvent(h: Hashes, log: seq<AuditEvent<Fact>>, fact: Fact, actorId: string, correlationId: string,
                    stamp: Stamp)
    : (r: seq<AuditEvent<Fact>>)
    ensures |r| == |log| + 1 && r[..|log|] == log && r[|log|].hashed.payload == fact
  {
    log + [NextEvent(h.event, log,
                     Material(stamp.eventId, AggregateType(fact), AggregateId(fact), EventType(fact), actorId,
                              correlationId, fact, stamp.at, ""))]
  }

  /** Row ids are never reused, so a new id is one that names no row yet. */
  predicate FreshEvent(db: Db, eventId: string) {
    forall i :: 0 <= i < |db.log| ==> db.log[i].hashed.eventId != eventId
  }
}
