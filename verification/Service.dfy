/** `CoordinationService` over a mutable database. Each method runs one transaction and is
    proved against the function of the same purpose in `Coordination`: the same answer,
    the same new state, and no change when an error is raised. */
module Service {
  import opened Wrappers
  import opened Text
  import opened Decimals
  import opened Signals
  import opened AuditChain
  import opened Domain
  import opened Outbox
  import opened Coordination
  import opened Store

  datatype SettlementReport = SettlementReport(manifest: Manifest, evidenceHash: string, hashValid: bool)

  class CoordinationService {
    const session: Database
    const h: Hashes

    constructor (session: Database, h: Hashes)
      ensures this.session == session && this.h == h
    {
      this.session := session;
      this.h := h;
    }

    method RegisterAsset(command: AssetCreate, actor: Actor, newId: string, correlationId: string, stamp: Stamp)
      returns (r: Result<string, Error>)
      requires command.Accepted()
      modifies session
      ensures var o := Coordination.RegisterAsset(h, old(session.View()), command, actor, newId, correlationId, stamp);
              r == Answer(o) && session.View() == Committed(o, old(session.View()))
    {
      if actor.role != AssetOwner { return Failure(RoleForbidden); }
      if command.ownerId != actor.actorId { return Failure(NotAssetOwner); }
      if exists a :: a in session.assets && session.assets[a].externalId == command.externalId {
        return Failure(DuplicateExternalId);
      }
      var asset := Asset(command.externalId, command.ownerId, command.assetType, Micro(command.capacity),
                         command.locationCode, Active);
      session.assets := session.assets[newId := asset];
      var fact := AssetRegistered(newId, command.externalId, command.assetType, command.capacity, command.locationCode);
      var _ := session.AppendEvent(h, fact, actor.actorId, correlationId, stamp);
      return Success(newId);
    }

    method CreateOffer(command: OfferCreate, actor: Actor, newId: string, correlationId: string, stamp: Stamp)
      returns (r: Result<string, Error>)
      requires command.Accepted()
      modifies session
      ensures var o := Coordination.CreateOffer(h, old(session.View()), command, actor, newId, correlationId, stamp);
              r == Answer(o) && session.View() == Committed(o, old(session.View()))
    {
      if actor.role != AssetOwner { return Failure(RoleForbidden); }
      if command.assetId !in session.assets { return Failure(AssetNotFound); }
      var asset := session.assets[command.assetId];
      if asset.ownerId != actor.actorId { return Failure(NotAssetOwner); }
      if asset.status != Active { return Failure(AssetSuspended); }
      if Micro(command.quantity) > asset.capacity { return Failure(OfferExceedsCapacity); }
      var offer := Offer(command.assetId, command.windowStart.instant, command.windowEnd.instant, command.direction,
                         Micro(command.quantity), Micro(command.price), Open, actor.actorId);
      session.offers := session.offers[newId := offer];
      var fact := OfferCreated(newId, command.assetId, command.direction, command.quantity, command.price,
                               command.windowStart, command.windowEnd);
      var _ := session.AppendEvent(h, fact, actor.actorId, correlationId, stamp);
      return Success(newId);
    }

    method ReserveOffer(offerId: string, command: ReservationCreate, actor: Actor, key: string, newId: string,
                        stamp: Stamp)
      returns (r: Result<string, Error>)
      requires command.Accepted()
      modifies session
      ensures var o := Reserve(h, old(session.View()), offerId, command, actor, key, newId, stamp);
              r == Answer(o) && session.View() == Committed(o, old(session.View()))
    {
      hide IdempotentResource, ReserveNew;
      if actor.role != MarketOperator { return Failure(RoleForbidden); }
      var requestHash := h.request(ReserveRequest(offerId, command.quantity, actor.actorId));
      var existing := FindResource(Operation.ReserveOffer, key, requestHash);
      if existing.Failure? { return Failure(existing.error); }
      if existing.value.Some? { return Success(existing.value.value); }
      r := TakeOffer(offerId, command, actor, key, requestHash, newId, stamp);
    }

    /** `reserve_offer` for a key not seen before. */
    method TakeOffer(offerId: string, command: ReservationCreate, actor: Actor, key: string, requestHash: string,
                     newId: string, stamp: Stamp)
      returns (r: Result<string, Error>)
      requires command.Accepted()
      modifies session
      ensures var o := ReserveNew(h, old(session.View()), offerId, command, actor, key, requestHash, newId, stamp);
              r == Answer(o) && session.View() == Committed(o, old(session.View()))
    {
      hide LogEvent, Micro;
      var begun := session.View();
      if offerId !in session.offers { return Failure(OfferNotFound); }
      var offer := session.offers[offerId];
      if offer.status != Open { return Failure(OfferNotOpen); }
      if Micro(command.quantity) > offer.quantity { return Failure(ReservationExceedsOffer); }
      session.offers := session.offers[offerId := offer.(status := OfferReserved)];
      if exists x :: x in session.reservations && session.reservations[x].offerId == offerId {
        session.Restore(begun);
        return Failure(IntegrityError);
      }
      SaveReservation(offerId, command.quantity, actor, key, requestHash, newId, stamp);
      return Success(newId);
    }

    /** The remaining writes of `reserve_offer`. */
    method SaveReservation(offerId: string, quantity: Decimal, actor: Actor, key: string, requestHash: string,
                           newId: string, stamp: Stamp)
      requires SixPlaces(quantity) && Micro(quantity) >= 0
      modifies session`reservations, session`log, session`idempotency
      ensures session.reservations == old(session.reservations)[newId :=
                Reservation(offerId, Micro(quantity), Reserved, actor.actorId)]
      ensures session.log == LogEvent(h, old(session.log), OfferTaken(newId, offerId, quantity), actor.actorId, key,
                                      stamp)
      ensures session.idempotency == old(session.idempotency)[(Operation.ReserveOffer, key) :=
                IdempotencyRecord(requestHash, newId)]
    {
      hide LogEvent, Micro;
      session.reservations := session.reservations[newId :=
        Reservation(offerId, Micro(quantity), Reserved, actor.actorId)];
      var _ := session.AppendEvent(h, OfferTaken(newId, offerId, quantity), actor.actorId, key, stamp);
      StoreIdempotency(Operation.ReserveOffer, key, requestHash, newId);
    }

    method IssueDispatch(reservationId: string, command: DispatchCreate, actor: Actor, key: string, newId: string,
                         messageId: string, stamp: Stamp)
      returns (r: Result<string, Error>)
      requires command.Accepted()
      modifies session
      ensures var o := Issue(h, old(session.View()), reservationId, command, actor, key, newId, messageId, stamp);
              r == Answer(o) && session.View() == Committed(o, old(session.View()))
    {
      hide IdempotentResource, IssueNew;
      if actor.role != MarketOperator { return Failure(RoleForbidden); }
      var requestHash := h.request(DispatchRequest(reservationId, command.target, command.startsAt, command.endsAt,
                                                   actor.actorId));
      var existing := FindResource(Operation.IssueDispatch, key, requestHash);
      if existing.Failure? { return Failure(existing.error); }
      if existing.value.Some? { return Success(existing.value.value); }
      r := QueueDispatch(reservationId, command, actor, key, requestHash, newId, messageId, stamp);
    }

    /** `issue_dispatch` for a key not seen before. */
    method QueueDispatch(reservationId: string, command: DispatchCreate, actor: Actor, key: string, requestHash: string,
                         newId: string, messageId: string, stamp: Stamp)
      returns (r: Result<string, Error>)
      requires command.Accepted()
      modifies session
      ensures var o := IssueNew(h, old(session.View()), reservationId, command, actor, key, requestHash, newId,
                                messageId, stamp);
              r == Answer(o) && session.View() == Committed(o, old(session.View()))
    {
      hide LogEvent, Micro, Enqueue;
      if reservationId !in session.reservations { return Failure(ReservationNotFound); }
      var reservation := session.reservations[reservationId];
      if reservation.status != Reserved { return Failure(ReservationNotReserved); }
      if Micro(command.target) > reservation.quantity { return Failure(DispatchExceedsReservation); }
      if reservation.offerId !in session.offers { return Failure(OfferNotFound); }
      var offer := session.offers[reservation.offerId];
      if offer.assetId !in session.assets { return Failure(AssetNotFound); }
      if command.startsAt.instant < offer.windowStart || command.endsAt.instant > offer.windowEnd {
        return Failure(DispatchOutsideOffer);
      }
      if exists d :: d in session.dispatches && session.dispatches[d].reservationId == reservationId {
        return Failure(IntegrityError);
      }
      var signal := DispatchSignal(newId, session.assets[offer.assetId].externalId, command.target, command.startsAt,
                                   command.endsAt);
      r := SaveDispatch(signal, reservationId, actor, key, requestHash, messageId, stamp);
    }

    /** The writes of `issue_dispatch`, rolled back together if the outbox refuses. */
    method SaveDispatch(signal: DispatchSignal, reservationId: string, actor: Actor, key: string, requestHash: string,
                        messageId: string, stamp: Stamp)
      returns (r: Result<string, Error>)
      requires SixPlaces(signal.target) && Micro(signal.target) >= 0 && reservationId in session.reservations
      modifies session
      ensures var before := old(session.View());
              match Enqueue(before, signal, key, messageId, stamp.at)
              case Failed(e) => r == Failure(e) && session.View() == before
              case Done(queued, _) =>
                && r == Success(signal.dispatchId)
                && session.View()
                   == queued.(dispatches := before.dispatches[signal.dispatchId :=
                                QueuedRow(signal, reservationId, actor, messageId)],
                              reservations := before.reservations[reservationId :=
                                before.reservations[reservationId].(status := DispatchPending)],
                              log := LogEvent(h, before.log, QueuedFact(signal, reservationId, messageId),
                                              actor.actorId, key, stamp),
                              idempotency := before.idempotency[(Operation.IssueDispatch, key) :=
                                IdempotencyRecord(requestHash, signal.dispatchId)])
    {
      hide LogEvent, Micro, Enqueue;
      var begun := session.View();
      var id := signal.dispatchId;
      var dispatch := QueuedRow(signal, reservationId, actor, messageId);
      session.dispatches := session.dispatches[id := dispatch.(adapterReference := "")];
      var queued := EnqueueDispatch(begun, signal, key, messageId, stamp.at);
      if queued.Failure? {
        session.Restore(begun);
        return Failure(queued.error);
      }
      session.dispatches := session.dispatches[id := dispatch];
      AcceptDispatch(signal, reservationId, actor, key, requestHash, messageId, stamp);
      return Success(id);
    }

    function QueuedRow(signal: DispatchSignal, reservationId: string, actor: Actor, messageId: string): Dispatch
      requires SixPlaces(signal.target) && Micro(signal.target) >= 0
    {
      Dispatch(reservationId, Micro(signal.target), signal.startsAt.instant, signal.endsAt.instant, Queued,
               actor.actorId, "outbox:" + messageId)
    }

    function QueuedFact(signal: DispatchSignal, reservationId: string, messageId: string): Fact {
      DispatchQueued(signal.dispatchId, reservationId, signal.target, signal.startsAt, signal.endsAt, messageId)
    }

    /** The writes of `issue_dispatch` after the message is queued. */
    method AcceptDispatch(signal: DispatchSignal, reservationId: string, actor: Actor, key: string, requestHash: string,
                          messageId: string, stamp: Stamp)
      requires reservationId in session.reservations
      modifies session`reservations, session`log, session`idempotency
      ensures session.reservations == old(session.reservations)[reservationId :=
                old(session.reservations)[reservationId].(status := DispatchPending)]
      ensures session.log == LogEvent(h, old(session.log), QueuedFact(signal, reservationId, messageId),
                                      actor.actorId, key, stamp)
      ensures session.idempotency == old(session.idempotency)[(Operation.IssueDispatch, key) :=
                IdempotencyRecord(requestHash, signal.dispatchId)]
    {
      hide LogEvent;
      session.reservations := session.reservations[reservationId :=
        session.reservations[reservationId].(status := DispatchPending)];
      var _ := session.AppendEvent(h, QueuedFact(signal, reservationId, messageId), actor.actorId, key, stamp);
      StoreIdempotency(Operation.IssueDispatch, key, requestHash, signal.dispatchId);
    }

    /** `enqueue_dispatch`, inside a transaction that found the database as `begun` and has
        not touched its messages. */
    method EnqueueDispatch(ghost begun: Db, signal: DispatchSignal, key: string, messageId: string, now: int)
      returns (r: Result<string, Error>)
      requires session.messages == begun.messages
      modifies session`messages
      ensures var o := Enqueue(begun, signal, key, messageId, now);
              && r == Answer(o) && session.messages == Committed(o, begun).messages
              && (o.Done? ==> o.db == begun.(messages := session.messages))
    {
      hide Blank, DispatchPayload;
      if Blank(key) { return Failure(BlankOutboxKey); }
      if exists m :: m in session.messages && session.messages[m].topic == DISPATCH_TOPIC
          && session.messages[m].key == key {
        return Failure(IntegrityError);
      }
      session.messages := session.messages[messageId :=
        Message(DISPATCH_TOPIC, signal.dispatchId, key, DispatchPayload(signal), Pending, 0, now, None, None, None,
                None, None, now, now)];
      return Success(messageId);
    }

    method RecordMeterReading(command: MeterReadingCreate, actor: Actor, newId: string, stamp: Stamp)
      returns (r: Result<string, Error>)
      requires command.Accepted()
      modifies session
      ensures var o := RecordReading(h, old(session.View()), command, actor, newId, stamp);
              r == Answer(o) && session.View() == Committed(o, old(session.View()))
    {
      hide LogEvent, Micro, ReadingWith;
      if actor.role != AssetOwner && actor.role != System { return Failure(RoleForbidden); }
      var fingerprint := h.reading(command);
      if command.assetId !in session.assets { return Failure(AssetNotFound); }
      if actor.role == AssetOwner && session.assets[command.assetId].ownerId
          != actor.actorId { return Failure(NotAssetOwner); }
      var existing := ReadingWith(session.View(), fingerprint);
      if existing.Some? { return Success(existing.value); }
      session.readings := session.readings[newId :=
        Reading(command.assetId, command.intervalStart.instant, command.intervalEnd.instant, Micro(command.energy),
                command.source, fingerprint, actor.actorId)];
      var fact := ReadingRecorded(newId, command.assetId, command.intervalStart, command.intervalEnd, command.energy,
                                  command.source, fingerprint);
      var _ := session.AppendEvent(h, fact, actor.actorId, fingerprint, stamp);
      return Success(newId);
    }

    method SettleReservation(reservationId: string, actor: Actor, key: string, newId: string, stamp: Stamp)
      returns (r: Result<string, Error>)
      modifies session
      ensures var o := Coordination.Settle(h, old(session.View()), reservationId, actor, key, newId, stamp);
              r == Answer(o) && session.View() == Committed(o, old(session.View()))
    {
      hide IdempotentResource, SettleNew;
      if actor.role != SettlementAnalyst { return Failure(RoleForbidden); }
      var requestHash := h.request(SettleRequest(reservationId, actor.actorId));
      var existing := FindResource(Operation.SettleReservation, key, requestHash);
      if existing.Failure? { return Failure(existing.error); }
      if existing.value.Some? { return Success(existing.value.value); }
      r := CalculateSettlement(reservationId, actor, key, requestHash, newId, stamp);
    }

    /** `settle_reservation` for a key not seen before. */
    method CalculateSettlement(reservationId: string, actor: Actor, key: string, requestHash: string, newId: string,
                               stamp: Stamp)
      returns (r: Result<string, Error>)
      modifies session
      ensures var o := SettleNew(h, old(session.View()), reservationId, actor, key, requestHash, newId, stamp);
              r == Answer(o) && session.View() == Committed(o, old(session.View()))
    {
      hide Settled, WindowReadings, Energies, DispatchOf, Decimals.Settle;
      if reservationId !in session.reservations { return Failure(ReservationNotFound); }
      var reservation := session.reservations[reservationId];
      if reservation.status != Dispatched { return Failure(ReservationNotDispatched); }
      var found := DispatchOf(session.View(), reservationId);
      if found.None? { return Failure(DispatchNotFound); }
      var dispatch := session.dispatches[found.value];
      if dispatch.status != Issued { return Failure(DispatchNotIssued); }
      if actor.actorId == dispatch.issuedBy || actor.actorId
          == reservation.requestedBy { return Failure(NotSeparateActor); }
      if reservation.offerId !in session.offers { return Failure(OfferNotFound); }
      var offer := session.offers[reservation.offerId];
      var readingIds := WindowReadings(session.readings, offer.assetId, dispatch.startsAt, dispatch.endsAt);
      if readingIds == [] { return Failure(NoReadings); }
      var bill := Decimals.Settle(Energies(session.readings, readingIds), offer.price);
      if bill.None? { return Failure(ArithmeticOverflow); }
      if exists x :: x in session.settlements && session.settlements[x].reservationId == reservationId {
        return Failure(IntegrityError);
      }
      SaveSettlement(reservationId, found.value, readingIds, bill.value, actor, key, requestHash, newId, stamp);
      return Success(newId);
    }

    /** The writes of `settle_reservation`. */
    method SaveSettlement(reservationId: string, dispatchId: string, readingIds: seq<string>, bill: Bill, actor: Actor,
                          key: string, requestHash: string, newId: string, stamp: Stamp)
      requires reservationId in session.reservations && session.reservations[reservationId].offerId in session.offers
      requires dispatchId in session.dispatches
      modifies session
      ensures session.View()
              == Settled(h, old(session.View()), reservationId, dispatchId, readingIds, bill, actor, key, requestHash,
                         newId, stamp)
    {
      hide LogEvent, FromColumn, HeadHash;
      SaveEvidence(reservationId, dispatchId, readingIds, bill, actor, key, newId, stamp);
      CloseRows(reservationId, dispatchId, key, requestHash, newId);
    }

    /** The row first without evidence, then the audit event, then the manifest that names
        the event. */
    method SaveEvidence(reservationId: string, dispatchId: string, readingIds: seq<string>, bill: Bill, actor: Actor,
                        key: string, newId: string, stamp: Stamp)
      requires reservationId in session.reservations && session.reservations[reservationId].offerId in session.offers
      modifies session`settlements, session`log
      ensures var offerId := session.reservations[reservationId].offerId;
              var offer := session.offers[offerId];
              var delivered, price, amount :=
                FromColumn(bill.delivered), FromColumn(offer.price), FromColumn(bill.amount);
              var manifest := Manifest(newId, reservationId, offerId, offer.assetId, dispatchId, readingIds,
                                       delivered, price, amount, stamp.eventId, HeadHash(session.log));
              var fact := SettlementCalculated(newId, reservationId, dispatchId, readingIds, delivered, price, amount);
              && session.log == LogEvent(h, old(session.log), fact, actor.actorId, key, stamp)
              && session.settlements == old(session.settlements)[newId :=
                   Settlement(reservationId, bill.delivered, offer.price, bill.amount, manifest, h.manifest(manifest),
                              actor.actorId)]
    {
      hide LogEvent, FromColumn;
      var offerId := session.reservations[reservationId].offerId;
      var offer := session.offers[offerId];
      var delivered, price, amount := FromColumn(bill.delivered), FromColumn(offer.price), FromColumn(bill.amount);
      var blank := Manifest("", "", "", "", "", [], delivered, price, amount, "", "");
      var settlement := Settlement(reservationId, bill.delivered, offer.price, bill.amount, blank, "", actor.actorId);
      session.settlements := session.settlements[newId := settlement];
      var fact := SettlementCalculated(newId, reservationId, dispatchId, readingIds, delivered, price, amount);
      var event := session.AppendEvent(h, fact, actor.actorId, key, stamp);
      var manifest := Manifest(newId, reservationId, offerId, offer.assetId, dispatchId, readingIds,
                               delivered, price, amount, stamp.eventId, event.eventHash);
      session.settlements := session.settlements[newId :=
        settlement.(manifest := manifest, evidenceHash := h.manifest(manifest))];
    }

    /** Completes reservation and dispatch and records the answer. */
    method CloseRows(reservationId: string, dispatchId: string, key: string, requestHash: string, newId: string)
      requires reservationId in session.reservations && dispatchId in session.dispatches
      modifies session`reservations, session`dispatches, session`idempotency
      ensures session.reservations == old(session.reservations)[reservationId :=
                old(session.reservations)[reservationId].(status := ReservationCompleted)]
      ensures session.dispatches == old(session.dispatches)[dispatchId :=
                old(session.dispatches)[dispatchId].(status := DispatchCompleted)]
      ensures session.idempotency == old(session.idempotency)[(Operation.SettleReservation, key) :=
                IdempotencyRecord(requestHash, newId)]
    {
      session.reservations := session.reservations[reservationId :=
        session.reservations[reservationId].(status := ReservationCompleted)];
      session.dispatches := session.dispatches[dispatchId :=
        session.dispatches[dispatchId].(status := DispatchCompleted)];
      StoreIdempotency(Operation.SettleReservation, key, requestHash, newId);
    }

    /** `settlement_evidence` */
    method SettlementEvidence(settlementId: string, actor: Actor) returns (r: Result<SettlementReport, Error>)
      ensures r.Success? <==>
                && actor.role in {Auditor, MarketOperator, SettlementAnalyst}
                && settlementId in session.settlements
      ensures r.Success? ==>
                var s := session.settlements[settlementId];
                r.value.manifest == s.manifest && r.value.evidenceHash == s.evidenceHash
                && (r.value.hashValid <==> h.manifest(s.manifest) == s.evidenceHash)
      ensures r.Failure? ==> r.error == if actor.role in {Auditor, MarketOperator, SettlementAnalyst} then
              SettlementNotFound else RoleForbidden
    {
      if actor.role != Auditor && actor.role != MarketOperator
          && actor.role != SettlementAnalyst { return Failure(RoleForbidden); }
      if settlementId !in session.settlements { return Failure(SettlementNotFound); }
      var s := session.settlements[settlementId];
      return Success(SettlementReport(s.manifest, s.evidenceHash, h.manifest(s.manifest) == s.evidenceHash));
    }

    method AuditVerification(actor: Actor) returns (r: Result<AuditChain.AuditVerification, Error>)
      ensures r.Success? <==> actor.role == Auditor
      ensures r.Success? ==>
                && r.value == Verdict(h.event, session.log)
                && (r.value.valid <==> Valid(h.event, session.log))
      ensures r.Failure? ==> r.error == RoleForbidden
    {
      if actor.role != Auditor { return Failure(RoleForbidden); }
      var v := VerifyChain(h.event, session.log);
      return Success(v);
    }

    method FindResource(op: Operation, key: string, requestHash: string) returns (r: Result<Option<string>, Error>)
      ensures match IdempotentResource(session.View(), op, key, requestHash)
              case Unseen => r == Success(None)
              case Replay(id) => r == Success(Some(id))
              case Refused(e) => r == Failure(e)
    {
      hide Blank;
      if Blank(key) { return Failure(BlankIdempotencyKey); }
      if (op, key) !in session.idempotency { return Success(None); }
      var record := session.idempotency[(op, key)];
      if record.requestHash != requestHash { return Failure(KeyReusedForOtherRequest); }
      if !ResourceExists(session.View(), op, record.resourceId) { return Failure(MissingResource); }
      return Success(Some(record.resourceId));
    }

    method StoreIdempotency(op: Operation, key: string, requestHash: string, resourceId: string)
      modifies session`idempotency
      ensures session.idempotency == old(session.idempotency)[(op, key) := IdempotencyRecord(requestHash, resourceId)]
    {
      session.idempotency := session.idempotency[(op, key) := IdempotencyRecord(requestHash, resourceId)];
    }
  }
}
