/** What holds of the database in every reachable state, and what no transaction ever
    changes. */
module Invariants {
  import opened Text
  import opened Decimals
  import opened Signals
  import opened Domain

  // ------------------------------------------------------- append-only history

  predicate SameOffer(a: Offer, b: Offer) { b == a.(status := b.status) }

  predicate SameReservation(a: Reservation, b: Reservation) { b == a.(status := b.status) }

  predicate SameDispatch(a: Dispatch, b: Dispatch) {
    b == a.(status := b.status, adapterReference := b.adapterReference)
  }

  /** The columns of a message that are written once. */
  predicate SameMessage(a: Message, b: Message) {
    b.topic == a.topic && b.aggregateId == a.aggregateId && b.key == a.key && b.payload == a.payload
    && b.createdAt == a.createdAt
  }

  /** Rows and events are only added; identities, quantities, windows, readings,
      settlements and idempotency records never change. */
  ghost predicate Extends(a: Db, b: Db) {
    && (forall x :: x in a.assets ==> x in b.assets && b.assets[x] == a.assets[x])
    && (forall x :: x in a.offers ==> x in b.offers && SameOffer(a.offers[x], b.offers[x]))
    && (forall x :: x in a.reservations ==>
        x in b.reservations && SameReservation(a.reservations[x], b.reservations[x]))
    && (forall x :: x in a.dispatches ==> x in b.dispatches && SameDispatch(a.dispatches[x], b.dispatches[x]))
    && (forall x :: x in a.readings ==> x in b.readings && b.readings[x] == a.readings[x])
    && (forall x :: x in a.settlements ==> x in b.settlements && b.settlements[x] == a.settlements[x])
    && (forall x :: x in a.idempotency ==> x in b.idempotency && b.idempotency[x] == a.idempotency[x])
    && (forall x :: x in a.messages ==> x in b.messages && SameMessage(a.messages[x], b.messages[x]))
    && a.log <= b.log
  }

  lemma ExtendsTransitive(a: Db, b: Db, c: Db)
    requires Extends(a, b) && Extends(b, c)
    ensures Extends(a, c)
  {
    forall x | x in a.offers ensures x in c.offers && SameOffer(a.offers[x], c.offers[x]) {}
    forall x | x in a.reservations ensures x in c.reservations
        && SameReservation(a.reservations[x], c.reservations[x]) {}
    forall x | x in a.dispatches ensures x in c.dispatches && SameDispatch(a.dispatches[x], c.dispatches[x]) {}
    forall x | x in a.messages ensures x in c.messages && SameMessage(a.messages[x], c.messages[x]) {}
    hide SameOffer, SameReservation, SameDispatch, SameMessage;
  }

  // --------------------------------------------------- single state, by table

  type Assets = map<string, Asset>
  type Offers = map<string, Offer>
  type Reservations = map<string, Reservation>
  type Dispatches = map<string, Dispatch>
  type Settlements = map<string, Settlement>
  type Messages = map<string, Message>
  type Records = map<(Operation, string), IdempotencyRecord>

  /** Offers stay within their asset's capacity and have a proper window. */
  predicate OffersOk(offers: Offers, assets: Assets) {
    forall x :: x in offers ==>
      && offers[x].assetId in assets
      && offers[x].quantity <= assets[offers[x].assetId].capacity
      && offers[x].windowStart < offers[x].windowEnd
  }

  predicate ReservationsOk(reservations: Reservations, offers: Offers) {
    && (forall x :: x in reservations ==>
          && reservations[x].offerId in offers
          && reservations[x].quantity <= offers[reservations[x].offerId].quantity)
    && (forall x, y :: x in reservations && y in reservations && reservations[x].offerId == reservations[y].offerId ==>
        x == y)
  }

  predicate DispatchesOk(dispatches: Dispatches, reservations: Reservations, offers: Offers) {
    && (forall x :: x in dispatches ==>
          && dispatches[x].reservationId in reservations
          && dispatches[x].target <= reservations[dispatches[x].reservationId].quantity
          && reservations[dispatches[x].reservationId].offerId in offers
          && DispatchInWindow(dispatches[x], offers[reservations[dispatches[x].reservationId].offerId]))
    && (forall x, y | x in dispatches && y in dispatches
        && dispatches[x].reservationId == dispatches[y].reservationId :: x == y)
  }

  predicate DispatchInWindow(d: Dispatch, o: Offer) {
    o.windowStart <= d.startsAt < d.endsAt <= o.windowEnd
  }

  /** Settlements belong to distinct reservations, and the settler is neither requester
      nor dispatcher. */
  predicate SettlementsOk(settlements: Settlements, reservations: Reservations, dispatches: Dispatches) {
    && (forall x :: x in settlements ==>
          && settlements[x].reservationId in reservations
          && settlements[x].settledBy != reservations[settlements[x].reservationId].requestedBy)
    && (forall x, d | x in settlements && d in dispatches
        && dispatches[d].reservationId == settlements[x].reservationId ::
          settlements[x].settledBy != dispatches[d].issuedBy)
    && (forall x, y | x in settlements && y in settlements
        && settlements[x].reservationId == settlements[y].reservationId :: x == y)
  }

  /** `locked_by` is set exactly while a lease is set exactly while processing. */
  predicate LeaseColumns(m: Message) {
    && (m.lockedBy.Some? <==> m.status == Processing)
    && (m.leaseExpiresAt.Some? <==> m.status == Processing)
  }

  /** A pending message always has budget left. */
  predicate WithinBudget(max: nat, m: Message) {
    && (m.status == Pending ==> m.attempts < max)
    && (m.status == Processing ==> m.attempts >= 1)
  }

  predicate MessagesOk(max: nat, messages: Messages) {
    && (forall x :: x in messages ==>
          messages[x].topic == DISPATCH_TOPIC && LeaseColumns(messages[x]) && WithinBudget(max, messages[x]))
    && (forall x, y :: x in messages && y in messages && messages[x].aggregateId == messages[y].aggregateId ==> x == y)
    && (forall x, y :: x in messages && y in messages && messages[x].key == messages[y].key ==> x == y)
  }

  /** Which dispatch and reservation statuses go with a message status. */
  predicate Agree(m: OutboxStatus, d: DispatchStatus, r: ReservationStatus) {
    match m
    case Pending => d == Queued && r == DispatchPending
    case Processing => d == Queued && r == DispatchPending
    case Published => (d == Issued && r == Dispatched) || (d == DispatchCompleted && r == ReservationCompleted)
    case Dead => d == Rejected && r == Cancelled
  }

  predicate JointStatus(messages: Messages, dispatches: Dispatches, reservations: Reservations) {
    forall x :: x in messages ==>
      && messages[x].aggregateId in dispatches
      && dispatches[messages[x].aggregateId].reservationId in reservations
      && Agree(messages[x].status, dispatches[messages[x].aggregateId].status,
               reservations[dispatches[messages[x].aggregateId].reservationId].status)
  }

  // Which rows of one stage have a row of the next.

  ghost predicate HasReservation(reservations: Reservations, offerId: string) {
    exists x :: x in reservations && reservations[x].offerId == offerId
  }

  ghost predicate HasDispatch(dispatches: Dispatches, reservationId: string) {
    exists x :: x in dispatches && dispatches[x].reservationId == reservationId
  }

  ghost predicate HasMessage(messages: Messages, dispatchId: string) {
    exists x :: x in messages && messages[x].aggregateId == dispatchId
  }

  ghost predicate HasSettlement(settlements: Settlements, reservationId: string) {
    exists x :: x in settlements && settlements[x].reservationId == reservationId
  }

  ghost predicate OfferStages(offers: Offers, reservations: Reservations) {
    forall x :: x in offers ==>
      && offers[x].status != OfferCancelled
      && (offers[x].status == OfferReserved <==> HasReservation(reservations, x))
  }

  ghost predicate ReservationStages(reservations: Reservations, dispatches: Dispatches, settlements: Settlements) {
    forall x :: x in reservations ==>
      && (reservations[x].status != Reserved <==> HasDispatch(dispatches, x))
      && (reservations[x].status == ReservationCompleted <==> HasSettlement(settlements, x))
  }

  ghost predicate DispatchStages(dispatches: Dispatches, messages: Messages) {
    forall x :: x in dispatches ==> HasMessage(messages, x)
  }

  /** The stored payload decodes to the row's target and window and to the external id
      of the asset behind it. */
  predicate Carries(m: Message, dispatches: Dispatches, reservations: Reservations, offers: Offers, assets: Assets) {
    && m.aggregateId in dispatches
    && dispatches[m.aggregateId].reservationId in reservations
    && reservations[dispatches[m.aggregateId].reservationId].offerId in offers
    && offers[reservations[dispatches[m.aggregateId].reservationId].offerId].assetId in assets
    && Decode(m.payload).Success?
    && SignalOf(Decode(m.payload).value, m.aggregateId, dispatches[m.aggregateId],
                assets[offers[reservations[dispatches[m.aggregateId].reservationId].offerId].assetId])
  }

  predicate SignalOf(signal: DispatchSignal, dispatchId: string, d: Dispatch, asset: Asset) {
    && signal.dispatchId == dispatchId
    && signal.assetExternalId == asset.externalId
    && SixPlaces(signal.target) && Micro(signal.target) == d.target
    && signal.startsAt == Zoned(d.startsAt, 0)
    && signal.endsAt == Zoned(d.endsAt, 0)
  }

  predicate Payloads(messages: Messages, dispatches: Dispatches, reservations: Reservations, offers: Offers,
                     assets: Assets) {
    forall x :: x in messages ==> Carries(messages[x], dispatches, reservations, offers, assets)
  }

  /** Each outbox key belongs to the `issue_dispatch` record that names the dispatch of
      the message. */
  predicate KeysRecorded(records: Records, messages: Messages) {
    forall x :: x in messages ==>
      && (IssueDispatch, messages[x].key) in records
      && records[(IssueDispatch, messages[x].key)].resourceId == messages[x].aggregateId
  }

  /** Records have real keys and name existing resources. */
  predicate RecordsOk(records: Records, reservations: Reservations, dispatches: Dispatches, settlements: Settlements) {
    forall p :: p in records ==>
      && !Blank(p.1)
      && match p.0
         case ReserveOffer => records[p].resourceId in reservations
         case IssueDispatch => records[p].resourceId in dispatches
         case SettleReservation => records[p].resourceId in settlements
  }

  ghost predicate Inv(max: nat, db: Db) {
    && OffersOk(db.offers, db.assets)
    && ReservationsOk(db.reservations, db.offers)
    && DispatchesOk(db.dispatches, db.reservations, db.offers)
    && SettlementsOk(db.settlements, db.reservations, db.dispatches)
    && MessagesOk(max, db.messages)
    && JointStatus(db.messages, db.dispatches, db.reservations)
    && OfferStages(db.offers, db.reservations)
    && ReservationStages(db.reservations, db.dispatches, db.settlements)
    && DispatchStages(db.dispatches, db.messages)
    && Payloads(db.messages, db.dispatches, db.reservations, db.offers, db.assets)
    && KeysRecorded(db.idempotency, db.messages)
    && RecordsOk(db.idempotency, db.reservations, db.dispatches, db.settlements)
  }
}
