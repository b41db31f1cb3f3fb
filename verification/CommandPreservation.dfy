/** The commands of the coordination service keep the database invariant, and their
    integrity errors cannot occur. */
module CommandPreservation {
  import opened Wrappers
  import opened Text
  import opened Decimals
  import opened Signals
  import opened AuditChain
  import opened Domain
  import opened Outbox
  import opened Coordination
  import opened Invariants
  import opened Preservation

  // ------------------------------------------------------- assets and offers

  lemma AssetInsert(assets: Assets, id: string, asset: Asset, offers: Offers)
    requires id !in assets && OffersOk(offers, assets)
    ensures OffersOk(offers, assets[id := asset])
  {
  }

  lemma RegisterKeeps(h: Hashes, max: nat, db: Db, cmd: AssetCreate, actor: Actor, assetId: string,
                      correlationId: string, stamp: Stamp)
    requires Inv(max, db) && cmd.Accepted() && assetId !in db.assets
    ensures var r := RegisterAsset(h, db, cmd, actor, assetId, correlationId, stamp);
            r.Done? ==> Inv(max, r.db) && Extends(db, r.db)
  {
    hide OffersOk, ReservationsOk, DispatchesOk, SettlementsOk, MessagesOk, JointStatus, OfferStages, ReservationStages,
      DispatchStages, Payloads, KeysRecorded, RecordsOk;
    hide Extends;
    var r := RegisterAsset(h, db, cmd, actor, assetId, correlationId, stamp);
    if r.Done? {
      AssetExtends(db, assetId, r.db.assets[assetId], r.db.log);
      AssetInsert(db.assets, assetId, r.db.assets[assetId], db.offers);
      PayloadsUpdate(db.messages, db.dispatches, db.reservations, db.offers, db.assets,
                     db.messages, db.dispatches, db.reservations, db.offers, r.db.assets);
    }
  }

  lemma AssetExtends(db: Db, id: string, asset: Asset, log: seq<AuditEvent<Fact>>)
    requires id !in db.assets && db.log <= log
    ensures Extends(db, db.(assets := db.assets[id := asset], log := log))
  {
  }

  lemma OfferInsert(offers: Offers, id: string, offer: Offer, assets: Assets, reservations: Reservations,
                    dispatches: Dispatches)
    requires id !in offers && offer.status == Open
    requires offer.assetId in assets && offer.quantity <= assets[offer.assetId].capacity
    requires offer.windowStart < offer.windowEnd
    requires ReservationsOk(reservations, offers)
    ensures OffersOk(offers, assets) ==> OffersOk(offers[id := offer], assets)
    ensures ReservationsOk(reservations, offers[id := offer])
    ensures DispatchesOk(dispatches, reservations, offers) ==>
              DispatchesOk(dispatches, reservations, offers[id := offer])
    ensures OfferStages(offers, reservations) ==> OfferStages(offers[id := offer], reservations)
  {
    assert !HasReservation(reservations, id);
    hide HasReservation, DispatchInWindow;
  }

  lemma CreateOfferKeeps(h: Hashes, max: nat, db: Db, cmd: OfferCreate, actor: Actor, offerId: string,
                         correlationId: string, stamp: Stamp)
    requires Inv(max, db) && cmd.Accepted() && offerId !in db.offers
    ensures var r := CreateOffer(h, db, cmd, actor, offerId, correlationId, stamp);
            r.Done? ==> Inv(max, r.db) && Extends(db, r.db)
  {
    hide OffersOk, ReservationsOk, DispatchesOk, SettlementsOk, MessagesOk, JointStatus, OfferStages, ReservationStages,
      DispatchStages, Payloads, KeysRecorded, RecordsOk;
    hide Extends;
    var r := CreateOffer(h, db, cmd, actor, offerId, correlationId, stamp);
    CreateOfferShape(h, db, cmd, actor, offerId, correlationId, stamp);
    hide CreateOffer;
    if r.Done? {
      OfferInsert(db.offers, offerId, r.db.offers[offerId], db.assets, db.reservations, db.dispatches);
      PayloadsUpdate(db.messages, db.dispatches, db.reservations, db.offers, db.assets,
                     db.messages, db.dispatches, db.reservations, r.db.offers, db.assets);
      OfferExtends(db, offerId, r.db.offers[offerId], r.db.log);
    }
  }

  /** What `create_offer` writes. */
  lemma CreateOfferShape(h: Hashes, db: Db, cmd: OfferCreate, actor: Actor, offerId: string, correlationId: string,
                         stamp: Stamp)
    requires cmd.Accepted()
    ensures var r := CreateOffer(h, db, cmd, actor, offerId, correlationId, stamp);
            r.Done? ==>
              && offerId in r.db.offers && db.log <= r.db.log
              && r.db == db.(offers := db.offers[offerId := r.db.offers[offerId]], log := r.db.log)
              && var o := r.db.offers[offerId];
                 o.status == Open && o.assetId in db.assets && o.quantity <= db.assets[o.assetId].capacity
                     && o.windowStart < o.windowEnd
  {
    hide Micro;
  }

  lemma OfferExtends(db: Db, id: string, offer: Offer, log: seq<AuditEvent<Fact>>)
    requires id !in db.offers && db.log <= log
    ensures Extends(db, db.(offers := db.offers[id := offer], log := log))
  {
  }

  // ------------------------------------------------------------ reservations

  lemma OfferUpdate(offers: Offers, id: string, offer: Offer, assets: Assets, reservations: Reservations,
                    dispatches: Dispatches)
    requires id in offers && SameOffer(offers[id], offer)
    ensures OffersOk(offers, assets) ==> OffersOk(offers[id := offer], assets)
    ensures ReservationsOk(reservations, offers) ==> ReservationsOk(reservations, offers[id := offer])
    ensures DispatchesOk(dispatches, reservations, offers) ==>
              DispatchesOk(dispatches, reservations, offers[id := offer])
  {
  }

  lemma ReservationInsert(reservations: Reservations, id: string, r: Reservation, offers: Offers,
                          dispatches: Dispatches, settlements: Settlements)
    requires id !in reservations && r.status == Reserved
    requires r.offerId in offers && r.quantity <= offers[r.offerId].quantity && !HasReservation(reservations, r.offerId)
    requires DispatchesOk(dispatches, reservations, offers) && SettlementsOk(settlements, reservations, dispatches)
    ensures ReservationsOk(reservations, offers) ==> ReservationsOk(reservations[id := r], offers)
    ensures DispatchesOk(dispatches, reservations[id := r], offers)
    ensures SettlementsOk(settlements, reservations[id := r], dispatches)
    ensures ReservationStages(reservations, dispatches, settlements) ==>
              ReservationStages(reservations[id := r], dispatches, settlements)
  {
    ReservationInsertStages(reservations, id, r, dispatches, settlements);
    assert forall x :: x in reservations ==> reservations[x].offerId != r.offerId;
    hide HasReservation, ReservationStages, DispatchInWindow;
  }

  lemma ReservationInsertStages(reservations: Reservations, id: string, r: Reservation, dispatches: Dispatches,
                                settlements: Settlements)
    requires id !in reservations && r.status == Reserved
    requires forall d :: d in dispatches ==> dispatches[d].reservationId in reservations
    requires forall x :: x in settlements ==> settlements[x].reservationId in reservations
    ensures ReservationStages(reservations, dispatches, settlements) ==>
              ReservationStages(reservations[id := r], dispatches, settlements)
  {
    assert !HasDispatch(dispatches, id) && !HasSettlement(settlements, id);
    hide HasDispatch, HasSettlement;
  }

  lemma ReservationInsertElsewhere(reservations: Reservations, id: string, r: Reservation, offers: Offers,
                                   messages: Messages, dispatches: Dispatches, settlements: Settlements,
                                       records: Records)
    requires id !in reservations && r.offerId in offers && offers[r.offerId].status == Open
    ensures OfferStages(offers, reservations)
            ==> OfferStages(offers[r.offerId := offers[r.offerId].(status := OfferReserved)], reservations[id := r])
    ensures JointStatus(messages, dispatches, reservations) ==> JointStatus(messages, dispatches, reservations[id := r])
    ensures RecordsOk(records, reservations, dispatches, settlements) ==>
              RecordsOk(records, reservations[id := r], dispatches, settlements)
  {
    var after := reservations[id := r];
    assert after[id].offerId == r.offerId;
    assert HasReservation(after, r.offerId);
    forall x | x != r.offerId ensures HasReservation(reservations, x) <==> HasReservation(after, x) {
      if k :| k in reservations && reservations[k].offerId == x { assert k in after; }
      if k :| k in after && after[k].offerId == x { assert k in reservations; }
    }
    hide HasReservation, Agree, Blank;
  }

  lemma RecordInsert(records: Records, op: Operation, key: string, record: IdempotencyRecord, messages: Messages,
                     reservations: Reservations, dispatches: Dispatches, settlements: Settlements)
    requires (op, key) !in records && !Blank(key)
    requires match op
             case ReserveOffer => record.resourceId in reservations
             case IssueDispatch => record.resourceId in dispatches
             case SettleReservation => record.resourceId in settlements
    ensures KeysRecorded(records, messages) ==> KeysRecorded(records[(op, key) := record], messages)
    ensures RecordsOk(records, reservations, dispatches, settlements)
            ==> RecordsOk(records[(op, key) := record], reservations, dispatches, settlements)
  {
    hide Blank;
  }

  /** An open offer has no reservation, so the unique column cannot clash. */
  lemma ReserveNoClash(max: nat, db: Db, offerId: string)
    requires Inv(max, db) && offerId in db.offers && db.offers[offerId].status == Open
    ensures !HasReservation(db.reservations, offerId)
  {
    hide OffersOk, ReservationsOk, DispatchesOk, SettlementsOk, MessagesOk, JointStatus, ReservationStages,
      DispatchStages, Payloads, KeysRecorded, RecordsOk, HasReservation;
  }

  /** The writes of a reservation. */
  function Taken(db: Db, id: string, r: Reservation, key: string, record: IdempotencyRecord,
                 log: seq<AuditEvent<Fact>>): Db
    requires r.offerId in db.offers
  {
    db.(reservations := db.reservations[id := r],
        offers := db.offers[r.offerId := db.offers[r.offerId].(status := OfferReserved)],
        log := log,
        idempotency := db.idempotency[(ReserveOffer, key) := record])
  }

  lemma TakenKeeps(max: nat, db: Db, id: string, r: Reservation, key: string, record: IdempotencyRecord,
                   log: seq<AuditEvent<Fact>>)
    requires Inv(max, db) && id !in db.reservations && r.status == Reserved && db.log <= log
    requires r.offerId in db.offers && db.offers[r.offerId].status == Open
    requires r.quantity <= db.offers[r.offerId].quantity
    requires (ReserveOffer, key) !in db.idempotency && !Blank(key) && record.resourceId == id
    ensures Inv(max, Taken(db, id, r, key, record, log)) && Extends(db, Taken(db, id, r, key, record, log))
  {
    hide OffersOk, ReservationsOk, DispatchesOk, SettlementsOk, MessagesOk, JointStatus, OfferStages, ReservationStages,
      DispatchStages, Payloads, KeysRecorded, RecordsOk, Blank, HasReservation;
    var after := Taken(db, id, r, key, record, log);
    ReserveNoClash(max, db, r.offerId);
    ReservationInsert(db.reservations, id, r, db.offers, db.dispatches, db.settlements);
    OfferUpdate(db.offers, r.offerId, after.offers[r.offerId], db.assets, after.reservations, db.dispatches);
    ReservationInsertElsewhere(db.reservations, id, r, db.offers, db.messages, db.dispatches, db.settlements,
                               db.idempotency);
    RecordInsert(db.idempotency, ReserveOffer, key, record, db.messages, after.reservations, db.dispatches,
                 db.settlements);
    OfferUpdate(db.offers, r.offerId, after.offers[r.offerId], db.assets, db.reservations, db.dispatches);
    PayloadsUpdate(db.messages, db.dispatches, db.reservations, db.offers, db.assets,
                   db.messages, db.dispatches, after.reservations, after.offers, db.assets);
    TakenExtends(db, id, r, key, record, log);
    hide Extends;
  }

  lemma TakenExtends(db: Db, id: string, r: Reservation, key: string, record: IdempotencyRecord,
                     log: seq<AuditEvent<Fact>>)
    requires id !in db.reservations && r.offerId in db.offers && (ReserveOffer, key) !in db.idempotency && db.log <= log
    ensures Extends(db, Taken(db, id, r, key, record, log))
  {
  }

  lemma ReserveShape(h: Hashes, max: nat, db: Db, offerId: string, cmd: ReservationCreate, actor: Actor, key: string,
                     reservationId: string, stamp: Stamp)
    requires Inv(max, db) && cmd.Accepted()
    ensures var o := Reserve(h, db, offerId, cmd, actor, key, reservationId, stamp);
            && !InternalFailure(o)
            && (o.Done? && o.db != db ==>
                  && offerId in db.offers && db.offers[offerId].status == Open
                  && Micro(cmd.quantity) <= db.offers[offerId].quantity
                  && (ReserveOffer, key) !in db.idempotency && !Blank(key)
                  && db.log <= o.db.log
                  && var r := Reservation(offerId, Micro(cmd.quantity), Reserved, actor.actorId);
                     var hash := h.request(ReserveRequest(offerId, cmd.quantity, actor.actorId));
                     o.db == Taken(db, reservationId, r, key, IdempotencyRecord(hash, reservationId), o.db.log))
  {
    hide Inv, Blank, Micro, IdempotentResource;
    LookupOutcome(max, db, ReserveOffer, key, h.request(ReserveRequest(offerId, cmd.quantity, actor.actorId)));
    if offerId in db.offers && db.offers[offerId].status == Open { ReserveNoClash(max, db, offerId); }
  }

  /** A lookup finds nothing only under a real key that has no record, and is refused only
      for a client's reason. */
  lemma LookupOutcome(max: nat, db: Db, op: Operation, key: string, requestHash: string)
    requires Inv(max, db)
    ensures var r := IdempotentResource(db, op, key, requestHash);
            && (r.Unseen? ==> (op, key) !in db.idempotency && !Blank(key))
            && (r.Refused? ==> r.error in {BlankIdempotencyKey, KeyReusedForOtherRequest})
  {
    RefusalsAreClient(max, db);
    hide Inv, Blank, ResourceExists;
  }

  lemma ReserveKeeps(h: Hashes, max: nat, db: Db, offerId: string, cmd: ReservationCreate, actor: Actor, key: string,
                     reservationId: string, stamp: Stamp)
    requires Inv(max, db) && cmd.Accepted() && reservationId !in db.reservations
    ensures var r := Reserve(h, db, offerId, cmd, actor, key, reservationId, stamp);
            r.Done? ==> Inv(max, r.db) && Extends(db, r.db)
  {
    hide Reserve, Inv, Extends, Blank;
    var o := Reserve(h, db, offerId, cmd, actor, key, reservationId, stamp);
    ReserveShape(h, max, db, offerId, cmd, actor, key, reservationId, stamp);
    ExtendsReflexive(db);
    if o.Done? && o.db != db {
      TakenKeeps(max, db, reservationId, Reservation(offerId, Micro(cmd.quantity), Reserved, actor.actorId), key,
                 IdempotencyRecord(h.request(ReserveRequest(offerId, cmd.quantity, actor.actorId)), reservationId),
                     o.db.log);
    }
  }

  /** Idempotency lookups refuse only blank keys and reused keys: no record points to a
      missing resource. */
  lemma RefusalsAreClient(max: nat, db: Db)
    requires Inv(max, db)
    ensures forall op, key, hash :: IdempotentResource(db, op, key, hash).Refused? ==>
              IdempotentResource(db, op, key, hash).error in {BlankIdempotencyKey, KeyReusedForOtherRequest}
  {
    hide Blank, OffersOk, ReservationsOk, DispatchesOk, SettlementsOk, MessagesOk, JointStatus, OfferStages,
      ReservationStages, DispatchStages, Payloads, KeysRecorded;
  }

  // -------------------------------------------------------------- dispatches

  lemma DispatchInsert(dispatches: Dispatches, id: string, d: Dispatch, reservations: Reservations, offers: Offers,
                       settlements: Settlements)
    requires id !in dispatches && !HasDispatch(dispatches, d.reservationId)
    requires !HasSettlement(settlements, d.reservationId)
    requires d.reservationId in reservations && reservations[d.reservationId].offerId in offers
    requires d.target <= reservations[d.reservationId].quantity
    requires DispatchInWindow(d, offers[reservations[d.reservationId].offerId])
    ensures DispatchesOk(dispatches, reservations, offers) ==> DispatchesOk(dispatches[id := d], reservations, offers)
    ensures SettlementsOk(settlements, reservations, dispatches) ==>
              SettlementsOk(settlements, reservations, dispatches[id := d])
  {
    assert forall x :: x in dispatches ==> dispatches[x].reservationId != d.reservationId;
    assert forall x :: x in settlements ==> settlements[x].reservationId != d.reservationId;
    hide HasDispatch, HasSettlement, DispatchInWindow;
  }

  lemma DispatchInsertStages(dispatches: Dispatches, id: string, d: Dispatch, reservations: Reservations,
                             settlements: Settlements, records: Records)
    requires id !in dispatches && d.reservationId in reservations && reservations[d.reservationId].status == Reserved
    ensures ReservationStages(reservations, dispatches, settlements)
            ==> ReservationStages(reservations[d.reservationId :=
              reservations[d.reservationId].(status := DispatchPending)],
                                  dispatches[id := d], settlements)
    ensures RecordsOk(records, reservations, dispatches, settlements) ==>
              RecordsOk(records, reservations, dispatches[id := d], settlements)
  {
    var after := dispatches[id := d];
    assert after[id].reservationId == d.reservationId;
    assert HasDispatch(after, d.reservationId);
    forall x | x != d.reservationId ensures HasDispatch(dispatches, x) <==> HasDispatch(after, x) {
      if k :| k in dispatches && dispatches[k].reservationId == x { assert k in after; }
      if k :| k in after && after[k].reservationId == x { assert k in dispatches; }
    }
    hide HasDispatch, HasSettlement, Blank;
  }

  lemma MessageInsert(max: nat, messages: Messages, id: string, m: Message, dispatches: Dispatches, d: Dispatch,
                      reservations: Reservations)
    requires id !in messages && max >= 1 && m.topic == DISPATCH_TOPIC && m.status == Pending && m.attempts == 0
    requires m.lockedBy.None? && m.leaseExpiresAt.None?
    requires m.aggregateId !in dispatches && forall x :: x in messages ==> messages[x].key != m.key
    requires d.status == Queued && d.reservationId in reservations && !HasDispatch(dispatches, d.reservationId)
    requires JointStatus(messages, dispatches, reservations)
    ensures MessagesOk(max, messages) ==> MessagesOk(max, messages[id := m])
    ensures JointStatus(messages[id := m], dispatches[m.aggregateId := d],
                        reservations[d.reservationId := reservations[d.reservationId].(status := DispatchPending)])
    ensures DispatchStages(dispatches, messages) ==> DispatchStages(dispatches[m.aggregateId := d], messages[id := m])
  {
    assert forall x :: x in messages ==> messages[x].aggregateId != m.aggregateId;
    assert forall x :: x in dispatches ==> dispatches[x].reservationId != d.reservationId;
    var after := messages[id := m];
    assert after[id].aggregateId == m.aggregateId;
    assert HasMessage(after, m.aggregateId);
    forall x ensures HasMessage(messages, x) ==> HasMessage(after, x) {
      if k :| k in messages && messages[k].aggregateId == x { assert k in after; }
    }
    hide HasMessage, HasDispatch;
  }

  /** The writes of a dispatch. */
  function Sent(db: Db, id: string, d: Dispatch, messageId: string, m: Message, record: IdempotencyRecord,
                log: seq<AuditEvent<Fact>>): Db
    requires d.reservationId in db.reservations
  {
    db.(dispatches := db.dispatches[id := d],
        reservations := db.reservations[d.reservationId :=
          db.reservations[d.reservationId].(status := DispatchPending)],
        messages := db.messages[messageId := m],
        log := log,
        idempotency := db.idempotency[(IssueDispatch, m.key) := record])
  }

  /** What the checks of `issue_dispatch` establish. */
  ghost predicate MaySend(db: Db, id: string, d: Dispatch, messageId: string, m: Message, signal: DispatchSignal,
                          record: IdempotencyRecord) {
    && d.reservationId in db.reservations && db.reservations[d.reservationId].status == Reserved
    && db.reservations[d.reservationId].offerId in db.offers
    && db.offers[db.reservations[d.reservationId].offerId].assetId in db.assets
    && d.target <= db.reservations[d.reservationId].quantity
    && DispatchInWindow(d, db.offers[db.reservations[d.reservationId].offerId])
    && d.status == Queued
    && (IssueDispatch, m.key) !in db.idempotency && !Blank(m.key) && record.resourceId == id
    && m.aggregateId == id && m.payload == DispatchPayload(signal)
    && m.topic == DISPATCH_TOPIC && m.status == Pending && m.attempts == 0 && m.lockedBy.None? && m.leaseExpiresAt.None?
    && SignalOf(OnWire(signal), id, d, db.assets[db.offers[db.reservations[d.reservationId].offerId].assetId])
  }

  lemma SentKeeps(max: nat, db: Db, id: string, d: Dispatch, messageId: string, m: Message, signal: DispatchSignal,
                  record: IdempotencyRecord, log: seq<AuditEvent<Fact>>)
    requires Inv(max, db) && max >= 1 && id !in db.dispatches && messageId !in db.messages && db.log <= log
    requires MaySend(db, id, d, messageId, m, signal, record)
    ensures Inv(max, Sent(db, id, d, messageId, m, record, log))
    ensures Extends(db, Sent(db, id, d, messageId, m, record, log))
  {
    hide OffersOk, ReservationsOk, DispatchesOk, SettlementsOk, MessagesOk, JointStatus, OfferStages, ReservationStages,
      DispatchStages, Payloads, KeysRecorded, RecordsOk, Blank, HasDispatch, HasSettlement, DispatchInWindow,
          DispatchPayload, OnWire, SignalOf, SixPlaces;
    var after := Sent(db, id, d, messageId, m, record, log);
    var r := after.reservations[d.reservationId];
    IssueNoClash(max, db, d.reservationId, m.key);
    DispatchInsert(db.dispatches, id, d, db.reservations, db.offers, db.settlements);
    DispatchInsertStages(db.dispatches, id, d, db.reservations, db.settlements, db.idempotency);
    ReservationUpdate(db.reservations, d.reservationId, r, db.offers, after.dispatches, db.settlements);
    ReservationUpdateElsewhere(db.reservations, d.reservationId, r, db.offers, db.idempotency, after.dispatches,
                               db.settlements);
    MessageInsert(max, db.messages, messageId, m, db.dispatches, d, db.reservations);
    SentRecords(db, id, messageId, m, record, after);
    SentPayloads(db, id, d, messageId, m, signal, record, log);
    SentExtends(db, id, d, messageId, m, record, log);
    hide Extends;
  }

  lemma SentExtends(db: Db, id: string, d: Dispatch, messageId: string, m: Message, record: IdempotencyRecord,
                    log: seq<AuditEvent<Fact>>)
    requires id !in db.dispatches && messageId !in db.messages && (IssueDispatch, m.key) !in db.idempotency
    requires d.reservationId in db.reservations && db.log <= log
    ensures Extends(db, Sent(db, id, d, messageId, m, record, log))
  {
  }

  lemma SentRecords(db: Db, id: string, messageId: string, m: Message, record: IdempotencyRecord, after: Db)
    requires KeysRecorded(db.idempotency, db.messages) && (IssueDispatch, m.key) !in db.idempotency && !Blank(m.key)
    requires record.resourceId == m.aggregateId == id && id in after.dispatches
    requires RecordsOk(db.idempotency, after.reservations, after.dispatches, after.settlements)
    ensures KeysRecorded(db.idempotency[(IssueDispatch, m.key) := record], db.messages[messageId := m])
    ensures RecordsOk(db.idempotency[(IssueDispatch, m.key) := record], after.reservations, after.dispatches,
                      after.settlements)
  {
    hide Blank;
  }

  lemma SentPayloads(db: Db, id: string, d: Dispatch, messageId: string, m: Message, signal: DispatchSignal,
                     record: IdempotencyRecord, log: seq<AuditEvent<Fact>>)
    requires MaySend(db, id, d, messageId, m, signal, record)
    requires id !in db.dispatches && messageId !in db.messages
    requires Payloads(db.messages, db.dispatches, db.reservations, db.offers, db.assets)
    ensures var after := Sent(db, id, d, messageId, m, record, log);
            Payloads(after.messages, after.dispatches, after.reservations, after.offers, after.assets)
  {
    var after := Sent(db, id, d, messageId, m, record, log);
    hide Payloads, Decode, DispatchPayload, OnWire, SignalOf, Blank, DispatchInWindow;
    PayloadsUpdate(db.messages, db.dispatches, db.reservations, db.offers, db.assets,
                   db.messages, after.dispatches, after.reservations, db.offers, db.assets);
    SentCarries(db, id, d, messageId, m, signal, record, log);
    hide Carries;
    PayloadsInsert(db.messages, messageId, m, after.dispatches, after.reservations, db.offers, db.assets);
  }

  lemma SentCarries(db: Db, id: string, d: Dispatch, messageId: string, m: Message, signal: DispatchSignal,
                    record: IdempotencyRecord, log: seq<AuditEvent<Fact>>)
    requires MaySend(db, id, d, messageId, m, signal, record)
    ensures var after := Sent(db, id, d, messageId, m, record, log);
            Carries(m, after.dispatches, after.reservations, after.offers, after.assets)
  {
    hide Decode, DispatchPayload, OnWire, SignalOf, Blank, DispatchInWindow;
    PayloadRoundTrip(signal);
  }

  lemma PayloadsInsert(messages: Messages, id: string, m: Message, dispatches: Dispatches, reservations: Reservations,
                       offers: Offers, assets: Assets)
    requires Payloads(messages, dispatches, reservations, offers, assets)
    requires Carries(m, dispatches, reservations, offers, assets)
    ensures Payloads(messages[id := m], dispatches, reservations, offers, assets)
  {
    hide Carries;
  }

  /** A reserved reservation has no dispatch and no settlement, and a key without an
      `issue_dispatch` record has no message. */
  lemma IssueNoClash(max: nat, db: Db, reservationId: string, key: string)
    requires Inv(max, db) && reservationId in db.reservations && db.reservations[reservationId].status == Reserved
    requires (IssueDispatch, key) !in db.idempotency
    ensures !HasDispatch(db.dispatches, reservationId) && !HasSettlement(db.settlements, reservationId)
    ensures forall x :: x in db.messages ==> db.messages[x].key != key
  {
    hide OffersOk, ReservationsOk, DispatchesOk, SettlementsOk, MessagesOk, JointStatus, OfferStages, DispatchStages,
      Payloads, RecordsOk, HasDispatch, HasSettlement;
  }

  /** What `issue_dispatch` writes for a key not seen before. */
  ghost predicate IssueWrites(db: Db, o: Outcome<string>, reservationId: string, cmd: DispatchCreate, key: string,
                              dispatchId: string, messageId: string)
  {
    && o.Done? && dispatchId in o.db.dispatches && messageId in o.db.messages
    && (IssueDispatch, key) in o.db.idempotency
    && o.db.messages[messageId].key == key && o.db.dispatches[dispatchId].reservationId == reservationId
    && db.log <= o.db.log
    && MaySend(db, dispatchId, o.db.dispatches[dispatchId], messageId, o.db.messages[messageId],
               SignalFor(db, reservationId, dispatchId, cmd), o.db.idempotency[(IssueDispatch, key)])
    && o.db == Sent(db, dispatchId, o.db.dispatches[dispatchId], messageId, o.db.messages[messageId],
                    o.db.idempotency[(IssueDispatch, key)], o.db.log)
  }

  lemma IssueNewShape(h: Hashes, db: Db, reservationId: string, cmd: DispatchCreate, actor: Actor, key: string,
                      requestHash: string, dispatchId: string, messageId: string, stamp: Stamp)
    requires cmd.Accepted() && (IssueDispatch, key) !in db.idempotency && !Blank(key)
    ensures var o := IssueNew(h, db, reservationId, cmd, actor, key, requestHash, dispatchId, messageId, stamp);
            o.Done? ==> IssueWrites(db, o, reservationId, cmd, key, dispatchId, messageId)
  {
    hide Blank, DispatchPayload, Micro, MaySend;
    var o := IssueNew(h, db, reservationId, cmd, actor, key, requestHash, dispatchId, messageId, stamp);
    if o.Done? { IssueNewMaySend(h, db, reservationId, cmd, actor, key, requestHash, dispatchId, messageId, stamp); }
  }

  lemma IssueNewMaySend(h: Hashes, db: Db, reservationId: string, cmd: DispatchCreate, actor: Actor, key: string,
                        requestHash: string, dispatchId: string, messageId: string, stamp: Stamp)
    requires cmd.Accepted() && (IssueDispatch, key) !in db.idempotency && !Blank(key)
    requires IssueNew(h, db, reservationId, cmd, actor, key, requestHash, dispatchId, messageId, stamp).Done?
    ensures var after := IssueNew(h, db, reservationId, cmd, actor, key, requestHash, dispatchId, messageId, stamp).db;
            && dispatchId in after.dispatches && messageId in after.messages
            && (IssueDispatch, key) in after.idempotency
            && MaySend(db, dispatchId, after.dispatches[dispatchId], messageId, after.messages[messageId],
                       SignalFor(db, reservationId, dispatchId, cmd), after.idempotency[(IssueDispatch, key)])
  {
    hide Blank, DispatchPayload, Plain, Micro, LogEvent, SignalOf, OnWire;
    hide Enqueue;
    EnqueueShape(db, SignalFor(db, reservationId, dispatchId, cmd), key, messageId, stamp.at);
    var after := IssueNew(h, db, reservationId, cmd, actor, key, requestHash, dispatchId, messageId, stamp).db;
    var asset := db.assets[db.offers[db.reservations[reservationId].offerId].assetId];
    IssuedSignal(cmd, dispatchId, asset, after.dispatches[dispatchId]);
  }

  /** A queued message waits unclaimed, with the payload of its signal. */
  lemma EnqueueShape(db: Db, signal: DispatchSignal, key: string, messageId: string, now: int)
    ensures var o := Enqueue(db, signal, key, messageId, now);
            o.Done? ==>
              && messageId in o.db.messages && o.db == db.(messages := o.db.messages)
              && var m := o.db.messages[messageId];
                 && m.aggregateId == signal.dispatchId && m.key == key && m.payload == DispatchPayload(signal)
                 && m.topic == DISPATCH_TOPIC && m.status == Pending && m.attempts == 0
                 && m.lockedBy.None? && m.leaseExpiresAt.None?
  {
    hide Blank, DispatchPayload;
  }

  /** What the outbox carries shows the dispatch row and the asset. */
  lemma IssuedSignal(cmd: DispatchCreate, dispatchId: string, asset: Asset, d: Dispatch)
    requires cmd.Accepted() && d.target == Micro(cmd.target)
    requires d.startsAt == cmd.startsAt.instant && d.endsAt == cmd.endsAt.instant
    ensures SignalOf(OnWire(DispatchSignal(dispatchId, asset.externalId, cmd.target, cmd.startsAt, cmd.endsAt)),
                     dispatchId, d, asset)
  {
    PlainKeepsValue(cmd.target);
    hide Plain, Micro, Numeric18;
  }

  /** `issue_dispatch` cannot fail on the uniqueness of dispatch or outbox key, on a
      blank outbox key, or on missing rows behind a reservation. */
  lemma IssueNewErrors(h: Hashes, max: nat, db: Db, reservationId: string, cmd: DispatchCreate, actor: Actor,
                       key: string, requestHash: string, dispatchId: string, messageId: string, stamp: Stamp)
    requires Inv(max, db) && cmd.Accepted() && (IssueDispatch, key) !in db.idempotency && !Blank(key)
    ensures !InternalFailure(IssueNew(h, db, reservationId, cmd, actor, key, requestHash, dispatchId, messageId, stamp))
  {
    hide Inv, Blank, DispatchPayload, Micro, LogEvent;
    if reservationId in db.reservations && db.reservations[reservationId].status == Reserved {
      IssueNoClash(max, db, reservationId, key);
      BehindReservation(max, db, reservationId);
      assert !exists d :: d in db.dispatches && db.dispatches[d].reservationId == reservationId;
    }
  }

  /** Failures that would mean a broken database rather than a refused command. */
  predicate InternalFailure<T>(o: Outcome<T>) {
    o.Failed? && o.error in {IntegrityError, BlankOutboxKey, MissingResource, DispatchNotFound, AggregateMissing}
  }

  lemma IssueShape(h: Hashes, max: nat, db: Db, reservationId: string, cmd: DispatchCreate, actor: Actor, key: string,
                   dispatchId: string, messageId: string, stamp: Stamp)
    requires Inv(max, db) && cmd.Accepted()
    ensures var o := Issue(h, db, reservationId, cmd, actor, key, dispatchId, messageId, stamp);
            && !InternalFailure(o)
            && (o.Done? && o.db != db ==> IssueWrites(db, o, reservationId, cmd, key, dispatchId, messageId))
  {
    hide IssueNew, IssueWrites, Inv, Blank, InternalFailure;
    RefusalsAreClient(max, db);
    if !Blank(key) && (IssueDispatch, key) !in db.idempotency {
      var requestHash := h.request(DispatchRequest(reservationId, cmd.target, cmd.startsAt, cmd.endsAt, actor.actorId));
      IssueNewErrors(h, max, db, reservationId, cmd, actor, key, requestHash, dispatchId, messageId, stamp);
      IssueNewShape(h, db, reservationId, cmd, actor, key, requestHash, dispatchId, messageId, stamp);
    }
    RefusalKinds();
  }

  lemma RefusalKinds()
    ensures forall e :: e in {RoleForbidden, BlankIdempotencyKey, KeyReusedForOtherRequest} ==>
              !InternalFailure<string>(Failed(e))
    ensures forall db, id: string :: !InternalFailure(Done(db, id))
  {
  }

  lemma BehindReservation(max: nat, db: Db, reservationId: string)
    requires Inv(max, db) && reservationId in db.reservations
    ensures db.reservations[reservationId].offerId in db.offers
    ensures db.offers[db.reservations[reservationId].offerId].assetId in db.assets
  {
    hide DispatchesOk, SettlementsOk, MessagesOk, JointStatus, OfferStages, ReservationStages, DispatchStages, Payloads,
      KeysRecorded, RecordsOk;
  }

  /** The signal that a dispatch command sends. */
  function SignalFor(db: Db, reservationId: string, dispatchId: string, cmd: DispatchCreate): DispatchSignal {
    DispatchSignal(dispatchId,
                   if && reservationId in db.reservations && db.reservations[reservationId].offerId in db.offers
                      && db.offers[db.reservations[reservationId].offerId].assetId in db.assets
                   then db.assets[db.offers[db.reservations[reservationId].offerId].assetId].externalId else "",
                   cmd.target, cmd.startsAt, cmd.endsAt)
  }

  lemma IssueKeeps(h: Hashes, max: nat, db: Db, reservationId: string, cmd: DispatchCreate, actor: Actor, key: string,
                   dispatchId: string, messageId: string, stamp: Stamp)
    requires Inv(max, db) && max >= 1 && cmd.Accepted() && dispatchId !in db.dispatches && messageId !in db.messages
    ensures var r := Issue(h, db, reservationId, cmd, actor, key, dispatchId, messageId, stamp);
            r.Done? ==> Inv(max, r.db) && Extends(db, r.db)
  {
    hide Issue, Inv, Extends, Blank, MaySend;
    var o := Issue(h, db, reservationId, cmd, actor, key, dispatchId, messageId, stamp);
    IssueShape(h, max, db, reservationId, cmd, actor, key, dispatchId, messageId, stamp);
    ExtendsReflexive(db);
    if o.Done? && o.db != db {
      SentKeeps(max, db, dispatchId, o.db.dispatches[dispatchId], messageId, o.db.messages[messageId],
                SignalFor(db, reservationId, dispatchId, cmd), o.db.idempotency[(IssueDispatch, key)], o.db.log);
    }
  }

  // ---------------------------------------------------------------- readings

  lemma RecordReadingKeeps(h: Hashes, max: nat, db: Db, cmd: MeterReadingCreate, actor: Actor, readingId: string,
                           stamp: Stamp)
    requires Inv(max, db) && cmd.Accepted() && readingId !in db.readings
    ensures var r := RecordReading(h, db, cmd, actor, readingId, stamp);
            r.Done? ==> Inv(max, r.db) && Extends(db, r.db)
  {
    hide Inv, Extends, ReadingWith, Micro;
    var r := RecordReading(h, db, cmd, actor, readingId, stamp);
    ExtendsReflexive(db);
    if r.Done? && r.db != db { ReadingInsert(max, db, readingId, r.db.readings[readingId], r.db.log); }
  }

  lemma ReadingInsert(max: nat, db: Db, id: string, r: Reading, log: seq<AuditEvent<Fact>>)
    requires Inv(max, db) && id !in db.readings && db.log <= log
    ensures var after := db.(readings := db.readings[id := r], log := log); Inv(max, after) && Extends(db, after)
  {
    hide OffersOk, ReservationsOk, DispatchesOk, SettlementsOk, MessagesOk, JointStatus, OfferStages, ReservationStages,
      DispatchStages, Payloads, KeysRecorded, RecordsOk;
  }

  // ------------------------------------------------------------- settlements

  /** What the checks of `settle_reservation` establish. */
  ghost predicate MaySettle(db: Db, reservationId: string, dispatchId: string, readingIds: seq<string>, bill: Bill,
                            actorId: string, key: string) {
    && reservationId in db.reservations && db.reservations[reservationId].status == Dispatched
    && dispatchId in db.dispatches && db.dispatches[dispatchId].status == Issued
    && db.dispatches[dispatchId].reservationId == reservationId
    && actorId != db.dispatches[dispatchId].issuedBy && actorId != db.reservations[reservationId].requestedBy
    && db.reservations[reservationId].offerId in db.offers
    && (SettleReservation, key) !in db.idempotency && !Blank(key)
    && var offer := db.offers[db.reservations[reservationId].offerId];
       (readingIds == WindowReadings(db.readings, offer.assetId, db.dispatches[dispatchId].startsAt,
                                     db.dispatches[dispatchId].endsAt)
        && readingIds != []
        && Decimals.Settle(Energies(db.readings, readingIds), offer.price) == Some(bill))
  }

  lemma SettlementInsert(settlements: Settlements, id: string, s: Settlement, reservations: Reservations,
                         dispatches: Dispatches, offers: Offers, dispatchId: string)
    requires id !in settlements && !HasSettlement(settlements, s.reservationId)
    requires s.reservationId in reservations && s.settledBy != reservations[s.reservationId].requestedBy
    requires dispatchId in dispatches && dispatches[dispatchId].reservationId == s.reservationId
    requires s.settledBy != dispatches[dispatchId].issuedBy
    requires DispatchesOk(dispatches, reservations, offers)
    ensures SettlementsOk(settlements, reservations, dispatches) ==>
              SettlementsOk(settlements[id := s], reservations, dispatches)
  {
    assert forall x :: x in settlements ==> settlements[x].reservationId != s.reservationId;
    assert forall d :: d in dispatches && dispatches[d].reservationId == s.reservationId ==> d == dispatchId;
    hide DispatchesOk, HasSettlement;
  }

  lemma SettlementInsertStages(settlements: Settlements, id: string, s: Settlement, reservations: Reservations,
                               r: Reservation, dispatches: Dispatches, records: Records)
    requires id !in settlements && s.reservationId in reservations
    requires reservations[s.reservationId].status != Reserved
    requires r == reservations[s.reservationId].(status := ReservationCompleted)
    ensures ReservationStages(reservations, dispatches, settlements)
            ==> ReservationStages(reservations[s.reservationId := r], dispatches, settlements[id := s])
    ensures RecordsOk(records, reservations, dispatches, settlements) ==>
              RecordsOk(records, reservations, dispatches, settlements[id := s])
  {
    var after := settlements[id := s];
    assert after[id].reservationId == s.reservationId;
    assert HasSettlement(after, s.reservationId);
    forall x | x != s.reservationId ensures HasSettlement(settlements, x) <==> HasSettlement(after, x) {
      if k :| k in settlements && settlements[k].reservationId == x { assert k in after; }
      if k :| k in after && after[k].reservationId == x { assert k in settlements; }
    }
    hide HasDispatch, HasSettlement, Blank;
  }

  lemma CompletedJoint(max: nat, db: Db, dispatchId: string)
    requires MessagesOk(max, db.messages) && DispatchesOk(db.dispatches, db.reservations, db.offers)
    requires JointStatus(db.messages, db.dispatches, db.reservations) && DispatchStages(db.dispatches, db.messages)
    requires dispatchId in db.dispatches && db.dispatches[dispatchId].status == Issued
    ensures var d := db.dispatches[dispatchId];
            d.reservationId in db.reservations
            && JointStatus(db.messages, db.dispatches[dispatchId := d.(status := DispatchCompleted)],
                           db.reservations[d.reservationId :=
                             db.reservations[d.reservationId].(status := ReservationCompleted)])
  {
    hide DispatchInWindow, LeaseColumns, WithinBudget;
    var d := db.dispatches[dispatchId];
    var dispatches := db.dispatches[dispatchId := d.(status := DispatchCompleted)];
    var reservations := db.reservations[d.reservationId :=
      db.reservations[d.reservationId].(status := ReservationCompleted)];
    forall x | x in db.messages
      ensures var y := db.messages[x].aggregateId;
              y in dispatches && dispatches[y].reservationId in reservations
              && Agree(db.messages[x].status, dispatches[y].status, reservations[dispatches[y].reservationId].status)
    {
      var y := db.messages[x].aggregateId;
      if y != dispatchId { assert db.dispatches[y].reservationId != d.reservationId; }
    }
  }

  lemma SettledKeeps(h: Hashes, max: nat, db: Db, reservationId: string, dispatchId: string, readingIds: seq<string>,
                     bill: Bill, actor: Actor, key: string, requestHash: string, settlementId: string, stamp: Stamp)
    requires Inv(max, db) && settlementId !in db.settlements
    requires MaySettle(db, reservationId, dispatchId, readingIds, bill, actor.actorId, key)
    ensures var after := Settled(h, db, reservationId, dispatchId, readingIds, bill, actor, key, requestHash,
                                 settlementId, stamp);
            Inv(max, after) && Extends(db, after)
  {
    hide OffersOk, ReservationsOk, DispatchesOk, SettlementsOk, MessagesOk, JointStatus, OfferStages, ReservationStages,
      DispatchStages, Payloads, KeysRecorded, RecordsOk, Blank, HasDispatch, HasSettlement, WindowReadings;
    var after := Settled(h, db, reservationId, dispatchId, readingIds, bill, actor, key, requestHash, settlementId,
                         stamp);
    SettledTables(max, db, reservationId, dispatchId, after.settlements[settlementId],
                  after.idempotency[(SettleReservation, key)], key, settlementId);
    SettledExtends(h, db, reservationId, dispatchId, readingIds, bill, actor, key, requestHash, settlementId, stamp);
    hide Extends;
    PayloadsUpdate(db.messages, db.dispatches, db.reservations, db.offers, db.assets,
                   db.messages, after.dispatches, after.reservations, db.offers, db.assets);
  }

  lemma SettledExtends(h: Hashes, db: Db, reservationId: string, dispatchId: string, readingIds: seq<string>,
                       bill: Bill, actor: Actor, key: string, requestHash: string, settlementId: string, stamp: Stamp)
    requires settlementId !in db.settlements
    requires MaySettle(db, reservationId, dispatchId, readingIds, bill, actor.actorId, key)
    ensures Extends(db, Settled(h, db, reservationId, dispatchId, readingIds, bill, actor, key, requestHash,
                                settlementId, stamp))
  {
    hide WindowReadings, Energies, Decimals.Settle, Blank, Extends;
    var after := Settled(h, db, reservationId, dispatchId, readingIds, bill, actor, key, requestHash, settlementId,
                         stamp);
    ClosedExtends(db, reservationId, dispatchId, after.settlements[settlementId],
                  after.idempotency[(SettleReservation, key)], key, settlementId, after.log);
  }

  lemma ClosedExtends(db: Db, reservationId: string, dispatchId: string, s: Settlement, record: IdempotencyRecord,
                      key: string, settlementId: string, log: seq<AuditEvent<Fact>>)
    requires settlementId !in db.settlements && (SettleReservation, key) !in db.idempotency && db.log <= log
    requires reservationId in db.reservations && dispatchId in db.dispatches
    ensures Extends(db, db.(settlements := db.settlements[settlementId := s],
                            reservations := db.reservations[reservationId :=
                              db.reservations[reservationId].(status := ReservationCompleted)],
                            dispatches := db.dispatches[dispatchId :=
                              db.dispatches[dispatchId].(status := DispatchCompleted)],
                            log := log,
                            idempotency := db.idempotency[(SettleReservation, key) := record]))
  {
  }

  lemma SettledTables(max: nat, db: Db, reservationId: string, dispatchId: string, s: Settlement,
                      record: IdempotencyRecord, key: string, settlementId: string)
    requires Inv(max, db) && settlementId !in db.settlements
    requires reservationId in db.reservations && db.reservations[reservationId].status == Dispatched
    requires dispatchId in db.dispatches && db.dispatches[dispatchId].status == Issued
    requires db.dispatches[dispatchId].reservationId == reservationId
    requires s.reservationId == reservationId
    requires s.settledBy != db.dispatches[dispatchId].issuedBy
    requires s.settledBy != db.reservations[reservationId].requestedBy
    requires (SettleReservation, key) !in db.idempotency && !Blank(key) && record.resourceId == settlementId
    ensures
      var r := db.reservations[reservationId].(status := ReservationCompleted);
      var d := db.dispatches[dispatchId].(status := DispatchCompleted);
      var reservations, dispatches := db.reservations[reservationId := r], db.dispatches[dispatchId := d];
      var settlements := db.settlements[settlementId := s];
      var records := db.idempotency[(SettleReservation, key) := record];
      && ReservationsOk(reservations, db.offers) && DispatchesOk(dispatches, reservations, db.offers)
      && SettlementsOk(settlements, reservations, dispatches) && JointStatus(db.messages, dispatches, reservations)
      && OfferStages(db.offers, reservations) && ReservationStages(reservations, dispatches, settlements)
      && DispatchStages(dispatches, db.messages) && KeysRecorded(records, db.messages)
      && RecordsOk(records, reservations, dispatches, settlements)
  {
    hide OffersOk, ReservationsOk, DispatchesOk, SettlementsOk, MessagesOk, JointStatus, OfferStages, ReservationStages,
      DispatchStages, Payloads, KeysRecorded, RecordsOk, Blank, HasDispatch, HasSettlement;
    var r := db.reservations[reservationId].(status := ReservationCompleted);
    var d := db.dispatches[dispatchId].(status := DispatchCompleted);
    var reservations, settlements := db.reservations[reservationId := r], db.settlements[settlementId := s];
    var records := db.idempotency[(SettleReservation, key) := record];
    NotSettled(db, reservationId);
    CompletedJoint(max, db, dispatchId);
    SettlementInsert(db.settlements, settlementId, s, db.reservations, db.dispatches, db.offers, dispatchId);
    SettlementInsertStages(db.settlements, settlementId, s, db.reservations, r, db.dispatches, db.idempotency);
    RecordInsert(db.idempotency, SettleReservation, key, record, db.messages, db.reservations, db.dispatches,
                 settlements);
    ReservationUpdate(db.reservations, reservationId, r, db.offers, db.dispatches, settlements);
    ReservationUpdateElsewhere(db.reservations, reservationId, r, db.offers, records, db.dispatches, settlements);
    DispatchUpdate(db.dispatches, dispatchId, d, reservations, db.offers, settlements, db.messages);
    DispatchUpdateElsewhere(db.dispatches, dispatchId, d, reservations, settlements, records);
  }

  lemma NotSettled(db: Db, reservationId: string)
    requires ReservationStages(db.reservations, db.dispatches, db.settlements)
    requires reservationId in db.reservations && db.reservations[reservationId].status == Dispatched
    ensures HasDispatch(db.dispatches, reservationId) && !HasSettlement(db.settlements, reservationId)
  {
  }

  /** Settlement cannot fail on a missing dispatch or offer, nor on a second settlement. */
  lemma SettleNewShape(h: Hashes, max: nat, db: Db, reservationId: string, actor: Actor, key: string,
                       requestHash: string, settlementId: string, stamp: Stamp)
    requires Inv(max, db) && (SettleReservation, key) !in db.idempotency && !Blank(key)
    ensures var o := SettleNew(h, db, reservationId, actor, key, requestHash, settlementId, stamp);
            && !InternalFailure(o)
            && (o.Done? ==> SettleWrites(h, db, o.db, reservationId, actor, key, requestHash, settlementId, stamp))
  {
    hide Inv, Blank, Settled, WindowReadings, Energies, Decimals.Settle, DispatchOf;
    if reservationId in db.reservations && db.reservations[reservationId].status == Dispatched {
      DispatchedReady(max, db, reservationId);
      var o := SettleNew(h, db, reservationId, actor, key, requestHash, settlementId, stamp);
      if o.Done? {
        var dispatchId := DispatchOf(db, reservationId).value;
        var offer := db.offers[db.reservations[reservationId].offerId];
        var d := db.dispatches[dispatchId];
        var readingIds := WindowReadings(db.readings, offer.assetId, d.startsAt, d.endsAt);
        var bill := Decimals.Settle(Energies(db.readings, readingIds), offer.price).value;
        assert MaySettle(db, reservationId, dispatchId, readingIds, bill, actor.actorId, key);
        assert o.db == Settled(h, db, reservationId, dispatchId, readingIds, bill, actor, key, requestHash,
                               settlementId, stamp);
      }
    }
  }

  /** A dispatched reservation has its dispatch and offer, and no settlement yet. */
  lemma DispatchedReady(max: nat, db: Db, reservationId: string)
    requires Inv(max, db) && reservationId in db.reservations && db.reservations[reservationId].status == Dispatched
    ensures DispatchOf(db, reservationId).Some? && db.reservations[reservationId].offerId in db.offers
    ensures !exists s :: s in db.settlements && db.settlements[s].reservationId == reservationId
  {
    NotSettled(db, reservationId);
    BehindReservation(max, db, reservationId);
    hide Inv;
  }

  ghost predicate SettleWrites(h: Hashes, db: Db, after: Db, reservationId: string, actor: Actor, key: string,
                               requestHash: string, settlementId: string, stamp: Stamp)
  {
    exists dispatchId, readingIds, bill ::
      && MaySettle(db, reservationId, dispatchId, readingIds, bill, actor.actorId, key)
      && after == Settled(h, db, reservationId, dispatchId, readingIds, bill, actor, key, requestHash, settlementId,
                          stamp)
  }

  lemma SettleShape(h: Hashes, max: nat, db: Db, reservationId: string, actor: Actor, key: string, settlementId: string,
                    stamp: Stamp)
    requires Inv(max, db)
    ensures var o := Coordination.Settle(h, db, reservationId, actor, key, settlementId, stamp);
            && !InternalFailure(o)
            && (o.Done? && o.db != db ==>
                  SettleWrites(h, db, o.db, reservationId, actor, key,
                               h.request(SettleRequest(reservationId, actor.actorId)), settlementId, stamp))
  {
    hide SettleNew, SettleWrites, Inv, Blank, InternalFailure;
    RefusalsAreClient(max, db);
    if !Blank(key) && (SettleReservation, key) !in db.idempotency {
      SettleNewShape(h, max, db, reservationId, actor, key, h.request(SettleRequest(reservationId, actor.actorId)),
                     settlementId, stamp);
    }
    RefusalKinds();
  }

  lemma SettleKeeps(h: Hashes, max: nat, db: Db, reservationId: string, actor: Actor, key: string, settlementId: string,
                    stamp: Stamp)
    requires Inv(max, db) && settlementId !in db.settlements
    ensures var r := Coordination.Settle(h, db, reservationId, actor, key, settlementId, stamp);
            r.Done? ==> Inv(max, r.db) && Extends(db, r.db)
  {
    hide Coordination.Settle, Inv, Extends, Settled, WindowReadings, Energies, Decimals.Settle, Blank;
    var o := Coordination.Settle(h, db, reservationId, actor, key, settlementId, stamp);
    SettleShape(h, max, db, reservationId, actor, key, settlementId, stamp);
    ExtendsReflexive(db);
    if o.Done? && o.db != db {
      var hash := h.request(SettleRequest(reservationId, actor.actorId));
      var dispatchId, readingIds, bill :|
        && MaySettle(db, reservationId, dispatchId, readingIds, bill, actor.actorId, key)
        && o.db == Settled(h, db, reservationId, dispatchId, readingIds, bill, actor, key, hash, settlementId, stamp);
      SettledKeeps(h, max, db, reservationId, dispatchId, readingIds, bill, actor, key, hash, settlementId, stamp);
    }
  }
}
