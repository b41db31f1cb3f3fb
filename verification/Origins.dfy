/** The log as the book of record: each event that makes rows has its rows, each row is what
    exactly one event says of it, and the events stand in order. */
module Origins {
  import opened Wrappers
  import opened Text
  import opened Decimals
  import opened Signals
  import opened AuditChain
  import opened Domain
  import opened Outbox
  import opened Coordination
  import opened Invariants
  import opened Preservation
  import opened CommandPreservation
  import opened Machine
  import opened MachineInvariants
  import opened MachineSafety
  import opened Guarantees
  import opened Runs
  import opened MessageSteps

  // -------------------------------------------------------------- row names

  datatype RowName =
    | AssetRow(id: string) | OfferRow(id: string) | ReservationRow(id: string) | DispatchRow(id: string)
    | ReadingRow(id: string) | SettlementRow(id: string) | MessageRow(id: string)
    | RecordRow(op: Operation, key: string)

  predicate HasRow(db: Db, r: RowName) {
    match r
    case AssetRow(id) => id in db.assets
    case OfferRow(id) => id in db.offers
    case ReservationRow(id) => id in db.reservations
    case DispatchRow(id) => id in db.dispatches
    case ReadingRow(id) => id in db.readings
    case SettlementRow(id) => id in db.settlements
    case MessageRow(id) => id in db.messages
    case RecordRow(op, key) => (op, key) in db.idempotency
  }

  /** The rows that an event makes. */
  function Makes(e: AuditEvent<Fact>): set<RowName> {
    var key := e.hashed.correlationId;
    match e.hashed.payload
    case AssetRegistered(id, _, _, _, _) => {AssetRow(id)}
    case OfferCreated(id, _, _, _, _, _, _) => {OfferRow(id)}
    case OfferTaken(id, _, _) => {ReservationRow(id), RecordRow(ReserveOffer, key)}
    case DispatchQueued(id, _, _, _, _, messageId) =>
      {DispatchRow(id), MessageRow(messageId), RecordRow(IssueDispatch, key)}
    case ReadingRecorded(id, _, _, _, _, _, _) => {ReadingRow(id)}
    case SettlementCalculated(id, _, _, _, _, _, _) => {SettlementRow(id), RecordRow(SettleReservation, key)}
    case _ => {}
  }

  // ---------------------------------------------------- what an event tells

  predicate Labels(e: AuditEvent<Fact>, aggregateType: string, aggregateId: string, eventType: string) {
    e.hashed.aggregateType == aggregateType && e.hashed.aggregateId == aggregateId && e.hashed.eventType == eventType
  }

  /** A column holds a decimal as its number of millionths, at most eighteen digits. */
  predicate Column(micro: int, d: Decimal) {
    SixPlaces(d) && micro == Micro(d) && 0 <= micro < 1_000_000_000_000_000_000
  }

  predicate Quantity(micro: int, d: Decimal) { Column(micro, d) && micro > 0 }

  predicate AssetTold(db: Db, e: AuditEvent<Fact>)
    requires e.hashed.payload.AssetRegistered?
  {
    var f := e.hashed.payload;
    && Labels(e, "asset", f.assetId, "asset.registered") && f.assetId in db.assets
    && var a := db.assets[f.assetId];
       && a.externalId == f.externalId && a.ownerId == e.hashed.actorId && a.assetType == f.assetType
       && Quantity(a.capacity, f.capacity) && a.locationCode == f.locationCode && a.status == Active
  }

  predicate OfferTold(db: Db, e: AuditEvent<Fact>)
    requires e.hashed.payload.OfferCreated?
  {
    var f := e.hashed.payload;
    && Labels(e, "offer", f.offerId, "offer.created") && f.offerId in db.offers
    && var o := db.offers[f.offerId];
       && o.assetId == f.assetId && o.direction == f.direction && o.createdBy == e.hashed.actorId
       && Quantity(o.quantity, f.quantity) && Column(o.price, f.price)
       && o.windowStart == f.windowStart.instant < f.windowEnd.instant == o.windowEnd
       && o.assetId in db.assets && db.assets[o.assetId].ownerId == e.hashed.actorId
  }

  predicate ReservationTold(h: Hashes, db: Db, e: AuditEvent<Fact>)
    requires e.hashed.payload.OfferTaken?
  {
    var f := e.hashed.payload;
    && Labels(e, "reservation", f.reservationId, "offer.reserved") && f.reservationId in db.reservations
    && var r := db.reservations[f.reservationId];
       && r.offerId == f.offerId && Quantity(r.quantity, f.quantity) && r.requestedBy == e.hashed.actorId
       && RecordTold(db, ReserveOffer, e, h.request(ReserveRequest(f.offerId, f.quantity, r.requestedBy)),
                     f.reservationId)
  }

  predicate DispatchTold(h: Hashes, db: Db, e: AuditEvent<Fact>)
    requires e.hashed.payload.DispatchQueued?
  {
    var f := e.hashed.payload;
    && Labels(e, "dispatch", f.dispatchId, "dispatch.queued") && f.dispatchId in db.dispatches
    && var d := db.dispatches[f.dispatchId];
       && d.reservationId == f.reservationId && Quantity(d.target, f.target) && d.issuedBy == e.hashed.actorId
       && d.startsAt == f.startsAt.instant < f.endsAt.instant == d.endsAt
       && RecordTold(db, IssueDispatch, e,
                     h.request(DispatchRequest(f.reservationId, f.target, f.startsAt, f.endsAt, d.issuedBy)),
                     f.dispatchId)
       && f.messageId in db.messages
       && var m := db.messages[f.messageId];
          && m.topic == "dispatch.publish" && m.aggregateId == f.dispatchId && m.key == e.hashed.correlationId
          && m.createdAt == e.hashed.occurredAt
  }

  predicate ReadingTold(h: Hashes, db: Db, e: AuditEvent<Fact>)
    requires e.hashed.payload.ReadingRecorded?
  {
    var f := e.hashed.payload;
    && Labels(e, "meter_reading", f.readingId, "meter_reading.recorded") && f.readingId in db.readings
    && var r := db.readings[f.readingId];
       && r.assetId == f.assetId && r.assetId in db.assets && r.source == f.source && r.recordedBy == e.hashed.actorId
       && r.intervalStart == f.intervalStart.instant < f.intervalEnd.instant == r.intervalEnd
       && Column(r.energy, f.energy)
       && r.fingerprint == f.fingerprint == e.hashed.correlationId
       && r.fingerprint == h.reading(MeterReadingCreate(f.assetId, f.intervalStart, f.intervalEnd, f.energy, f.source))
  }

  predicate SettlementTold(h: Hashes, db: Db, e: AuditEvent<Fact>)
    requires e.hashed.payload.SettlementCalculated?
  {
    var f := e.hashed.payload;
    && Labels(e, "settlement", f.settlementId, "settlement.calculated") && f.settlementId in db.settlements
    && f.reservationId in db.reservations && db.reservations[f.reservationId].offerId in db.offers
    && var s := db.settlements[f.settlementId];
       var offerId := db.reservations[f.reservationId].offerId;
       && s.reservationId == f.reservationId && s.settledBy == e.hashed.actorId
       && FromColumn(s.delivered) == f.delivered && FromColumn(s.price) == f.price && FromColumn(s.amount) == f.amount
       && s.manifest == Manifest(f.settlementId, f.reservationId, offerId, db.offers[offerId].assetId, f.dispatchId,
                                 f.readingIds, f.delivered, f.price, f.amount, e.hashed.eventId, e.eventHash)
       && s.evidenceHash == h.manifest(s.manifest)
       && RecordTold(db, SettleReservation, e, h.request(SettleRequest(f.reservationId, s.settledBy)), f.settlementId)
  }

  /** The idempotency record that goes with an event. */
  predicate RecordTold(db: Db, op: Operation, e: AuditEvent<Fact>, requestHash: string, id: string) {
    && (op, e.hashed.correlationId) in db.idempotency
    && db.idempotency[(op, e.hashed.correlationId)] == IdempotencyRecord(requestHash, id)
  }

  /** A worker's or a recovery operator's event names a dispatch and its message. */
  predicate DeliveryTold(db: Db, e: AuditEvent<Fact>, dispatchId: string, messageId: string, eventType: string) {
    && Labels(e, "dispatch", dispatchId, eventType) && dispatchId in db.dispatches && messageId in db.messages
    && db.messages[messageId].aggregateId == dispatchId && db.messages[messageId].key == e.hashed.correlationId
  }

  predicate Told(h: Hashes, db: Db, e: AuditEvent<Fact>) {
    match e.hashed.payload
    case AssetRegistered(_, _, _, _, _) => AssetTold(db, e)
    case OfferCreated(_, _, _, _, _, _, _) => OfferTold(db, e)
    case OfferTaken(_, _, _) => ReservationTold(h, db, e)
    case DispatchQueued(_, _, _, _, _, _) => DispatchTold(h, db, e)
    case ReadingRecorded(_, _, _, _, _, _, _) => ReadingTold(h, db, e)
    case SettlementCalculated(_, _, _, _, _, _, _) => SettlementTold(h, db, e)
    case DispatchPublished(d, m, _, _) => DeliveryTold(db, e, d, m, "dispatch.published")
    case DeliveryFailed(d, m, _, _) => DeliveryTold(db, e, d, m, "dispatch.delivery_failed")
    case RedriveAuthorized(d, m, _, _, _) => DeliveryTold(db, e, d, m, "dispatch.redrive_authorized")
  }

  lemma AcceptedFits(d: Decimal)
    requires Numeric18(d)
    ensures Column(Micro(d), d)
  {
    hide Micro, SixPlaces;
    Pow10Sum(9, 9);
    assert Pow10(9) == 1_000_000_000;
  }

  /** What an event tells stays true: the columns it speaks of are written once. */
  lemma ToldStays(h: Hashes, a: Db, b: Db, e: AuditEvent<Fact>)
    requires Told(h, a, e) && Extends(a, b)
    ensures Told(h, b, e)
  {
    hide Extends, AssetTold, OfferTold, ReservationTold, DispatchTold, ReadingTold, SettlementTold, DeliveryTold;
    match e.hashed.payload
    case AssetRegistered(_, _, _, _, _) => OfferedStays(a, b, e);
    case OfferCreated(_, _, _, _, _, _, _) => OfferedStays(a, b, e);
    case OfferTaken(_, _, _) => TakenStays(h, a, b, e);
    case DispatchQueued(_, _, _, _, _, _) => QueuedStays(h, a, b, e);
    case ReadingRecorded(_, _, _, _, _, _, _) => ReadStays(h, a, b, e);
    case SettlementCalculated(_, _, _, _, _, _, _) => SettledStays(h, a, b, e);
    case DispatchPublished(d, m, _, _) => DeliveredStays(a, b, e, d, m, "dispatch.published");
    case DeliveryFailed(d, m, _, _) => DeliveredStays(a, b, e, d, m, "dispatch.delivery_failed");
    case RedriveAuthorized(d, m, _, _, _) => DeliveredStays(a, b, e, d, m, "dispatch.redrive_authorized");
  }

  lemma OfferedStays(a: Db, b: Db, e: AuditEvent<Fact>)
    requires Extends(a, b)
    ensures e.hashed.payload.AssetRegistered? && AssetTold(a, e) ==> AssetTold(b, e)
    ensures e.hashed.payload.OfferCreated? && OfferTold(a, e) ==> OfferTold(b, e)
  {
    hide Quantity, Column;
    if e.hashed.payload.OfferCreated? && OfferTold(a, e) {
      var id := e.hashed.payload.offerId;
      assert SameOffer(a.offers[id], b.offers[id]);
    }
  }

  lemma TakenStays(h: Hashes, a: Db, b: Db, e: AuditEvent<Fact>)
    requires e.hashed.payload.OfferTaken? && ReservationTold(h, a, e) && Extends(a, b)
    ensures ReservationTold(h, b, e)
  {
    hide Quantity, Column;
    var id := e.hashed.payload.reservationId;
    assert SameReservation(a.reservations[id], b.reservations[id]);
  }

  lemma QueuedStays(h: Hashes, a: Db, b: Db, e: AuditEvent<Fact>)
    requires e.hashed.payload.DispatchQueued? && DispatchTold(h, a, e) && Extends(a, b)
    ensures DispatchTold(h, b, e)
  {
    hide Quantity, Column;
    var id, m := e.hashed.payload.dispatchId, e.hashed.payload.messageId;
    assert SameDispatch(a.dispatches[id], b.dispatches[id]) && SameMessage(a.messages[m], b.messages[m]);
  }

  lemma ReadStays(h: Hashes, a: Db, b: Db, e: AuditEvent<Fact>)
    requires e.hashed.payload.ReadingRecorded? && ReadingTold(h, a, e) && Extends(a, b)
    ensures ReadingTold(h, b, e)
  {
    hide Column;
  }

  lemma SettledStays(h: Hashes, a: Db, b: Db, e: AuditEvent<Fact>)
    requires e.hashed.payload.SettlementCalculated? && SettlementTold(h, a, e) && Extends(a, b)
    ensures SettlementTold(h, b, e)
  {
    hide FromColumn;
    var r := e.hashed.payload.reservationId;
    assert SameReservation(a.reservations[r], b.reservations[r]);
    assert SameOffer(a.offers[a.reservations[r].offerId], b.offers[a.reservations[r].offerId]);
  }

  lemma DeliveredStays(a: Db, b: Db, e: AuditEvent<Fact>, d: string, m: string, eventType: string)
    requires DeliveryTold(a, e, d, m, eventType) && Extends(a, b)
    ensures DeliveryTold(b, e, d, m, eventType)
  {
    assert SameMessage(a.messages[m], b.messages[m]);
  }

  // ------------------------------------------------------ what a step appends

  ghost predicate SameRows(a: Db, b: Db) { forall r :: HasRow(b, r) <==> HasRow(a, r) }

  /** A transaction wrote one event, which tells of just the rows that the transaction
      made. */
  ghost predicate Appends(h: Hashes, a: Db, b: Db, stamp: Stamp) {
    && |b.log| == |a.log| + 1 && b.log[..|a.log|] == a.log
    && var e := b.log[|a.log|];
       && e.sequence == (if a.log == [] then 1 else a.log[|a.log| - 1].sequence + 1)
       && e.hashed.eventId == stamp.eventId && e.hashed.occurredAt == stamp.at
       && Told(h, b, e)
       && (forall r :: r in Makes(e) ==> !HasRow(a, r))
       && (forall r :: HasRow(b, r) <==> HasRow(a, r) || r in Makes(e))
  }

  ghost predicate Grows(h: Hashes, a: Db, b: Db, stamp: Stamp) {
    (b.log == a.log && SameRows(a, b)) || Appends(h, a, b, stamp)
  }

  /** The event that a transaction appends. */
  lemma LoggedEvent(h: Hashes, log: seq<AuditEvent<Fact>>, fact: Fact, actorId: string, correlationId: string,
                    stamp: Stamp)
    ensures var r := LogEvent(h, log, fact, actorId, correlationId, stamp);
            && |r| == |log| + 1 && r[..|log|] == log
            && var e := r[|log|];
               && e.sequence == (if log == [] then 1 else log[|log| - 1].sequence + 1)
               && e.hashed.payload == fact && e.hashed.actorId == actorId && e.hashed.correlationId == correlationId
               && e.hashed.eventId == stamp.eventId && e.hashed.occurredAt == stamp.at
               && e.hashed.aggregateType == AggregateType(fact) && e.hashed.aggregateId == AggregateId(fact)
               && e.hashed.eventType == EventType(fact) && e.eventHash == HeadHash(r)
  {
  }

  /** An event carries out a command: its actor, its request, its key. */
  predicate Commanded(h: Hashes, before: Db, c: Command, m: Material<Fact>) {
    match c
    case RegisterCommand(cmd, actor, id, correlationId) =>
      && m.actorId == actor.actorId && m.correlationId == correlationId
      && m.payload == AssetRegistered(id, cmd.externalId, cmd.assetType, cmd.capacity, cmd.locationCode)
    case OfferCommand(cmd, actor, id, correlationId) =>
      && m.actorId == actor.actorId && m.correlationId == correlationId
      && m.payload == OfferCreated(id, cmd.assetId, cmd.direction, cmd.quantity, cmd.price, cmd.windowStart,
                                   cmd.windowEnd)
    case ReserveCommand(offerId, cmd, actor, key, id) =>
      m.actorId == actor.actorId && m.correlationId == key && m.payload == OfferTaken(id, offerId, cmd.quantity)
    case IssueCommand(reservationId, cmd, actor, key, id, messageId) =>
      && m.actorId == actor.actorId && m.correlationId == key
      && m.payload == DispatchQueued(id, reservationId, cmd.target, cmd.startsAt, cmd.endsAt, messageId)
    case ReadingCommand(cmd, actor, id) =>
      && m.actorId == actor.actorId && m.correlationId == h.reading(cmd)
      && m.payload == ReadingRecorded(id, cmd.assetId, cmd.intervalStart, cmd.intervalEnd, cmd.energy, cmd.source,
                                      h.reading(cmd))
    case SettleCommand(reservationId, actor, key, id) =>
      && m.actorId == actor.actorId && m.correlationId == key && m.payload.SettlementCalculated?
      && m.payload.settlementId == id && m.payload.reservationId == reservationId
    case RedriveCommand(actor, messageId, dispatchId, reason) =>
      && m.actorId == actor.actorId && messageId in before.messages
      && var error := before.messages[messageId].lastError;
         m.payload == RedriveAuthorized(dispatchId, messageId, Joined(Words(reason)),
                                        before.messages[messageId].attempts,
                                        h.text(if error.Some? then error.value else ""))
  }

  /** A command changed nothing, or appended the event that carries it out. */
  ghost predicate Accomplished(h: Hashes, a: Db, b: Db, c: Command, stamp: Stamp) {
    b == a || (Appends(h, a, b, stamp) && Commanded(h, a, c, b.log[|a.log|].hashed))
  }

  /** A table by table account of new rows. */
  ghost predicate TablesGrow(a: Db, b: Db, s: set<RowName>) {
    && (forall x :: x in b.assets <==> x in a.assets || AssetRow(x) in s)
    && (forall x :: x in b.offers <==> x in a.offers || OfferRow(x) in s)
    && (forall x :: x in b.reservations <==> x in a.reservations || ReservationRow(x) in s)
    && (forall x :: x in b.dispatches <==> x in a.dispatches || DispatchRow(x) in s)
    && (forall x :: x in b.readings <==> x in a.readings || ReadingRow(x) in s)
    && (forall x :: x in b.settlements <==> x in a.settlements || SettlementRow(x) in s)
    && (forall x :: x in b.messages <==> x in a.messages || MessageRow(x) in s)
    && (forall op, key :: (op, key) in b.idempotency <==> (op, key) in a.idempotency || RecordRow(op, key) in s)
  }

  lemma RowsGrow(a: Db, b: Db, s: set<RowName>)
    requires TablesGrow(a, b, s)
    ensures forall r :: HasRow(b, r) <==> HasRow(a, r) || r in s
  {
    forall r ensures HasRow(b, r) <==> HasRow(a, r) || r in s { RowGrows(a, b, s, r); }
  }

  lemma RowGrows(a: Db, b: Db, s: set<RowName>, r: RowName)
    requires TablesGrow(a, b, s)
    ensures HasRow(b, r) <==> HasRow(a, r) || r in s
  {
    match r
    case AssetRow(_) =>
    case OfferRow(_) =>
    case ReservationRow(_) =>
    case DispatchRow(_) =>
    case ReadingRow(_) =>
    case SettlementRow(_) =>
    case MessageRow(_) =>
    case RecordRow(_, _) =>
  }

  lemma AppendsOne(h: Hashes, a: Db, b: Db, fact: Fact, actorId: string, correlationId: string, stamp: Stamp)
    requires b.log == LogEvent(h, a.log, fact, actorId, correlationId, stamp)
    requires Told(h, b, b.log[|a.log|]) && TablesGrow(a, b, Makes(b.log[|a.log|]))
    requires forall r :: r in Makes(b.log[|a.log|]) ==> !HasRow(a, r)
    ensures Appends(h, a, b, stamp)
  {
    LoggedEvent(h, a.log, fact, actorId, correlationId, stamp);
    hide Told, LogEvent;
    RowsGrow(a, b, Makes(b.log[|a.log|]));
    hide HasRow, TablesGrow, Makes;
  }

  /** A transaction appended an event with the given contents. */
  ghost predicate Wrote(h: Hashes, a: Db, b: Db, fact: Fact, actorId: string, correlationId: string, stamp: Stamp) {
    && Appends(h, a, b, stamp)
    && b.log[|a.log|].hashed.payload == fact && b.log[|a.log|].hashed.actorId == actorId
    && b.log[|a.log|].hashed.correlationId == correlationId
  }

  lemma RegisterWrites(h: Hashes, db: Db, cmd: AssetCreate, actor: Actor, id: string, correlationId: string,
                       stamp: Stamp)
    requires cmd.Accepted() && id !in db.assets
    ensures var o := RegisterAsset(h, db, cmd, actor, id, correlationId, stamp);
            var fact := AssetRegistered(id, cmd.externalId, cmd.assetType, cmd.capacity, cmd.locationCode);
            o.Done? ==> Wrote(h, db, o.db, fact, actor.actorId, correlationId, stamp)
  {
    hide LogEvent, Micro, Numeric18, Appends;
    var fact := AssetRegistered(id, cmd.externalId, cmd.assetType, cmd.capacity, cmd.locationCode);
    var o := RegisterAsset(h, db, cmd, actor, id, correlationId, stamp);
    LoggedEvent(h, db.log, fact, actor.actorId, correlationId, stamp);
    AcceptedFits(cmd.capacity);
    if o.Done? {
      assert Told(h, o.db, o.db.log[|db.log|]);
      hide Told;
      assert TablesGrow(db, o.db, {AssetRow(id)});
      hide TablesGrow;
      assert !HasRow(db, AssetRow(id));
      AppendsOne(h, db, o.db, fact, actor.actorId, correlationId, stamp);
    }
  }

  lemma OfferWrites(h: Hashes, db: Db, cmd: OfferCreate, actor: Actor, id: string, correlationId: string, stamp: Stamp)
    requires cmd.Accepted() && id !in db.offers
    ensures var o := CreateOffer(h, db, cmd, actor, id, correlationId, stamp);
            var fact := OfferCreated(id, cmd.assetId, cmd.direction, cmd.quantity, cmd.price, cmd.windowStart,
                                     cmd.windowEnd);
            o.Done? ==> Wrote(h, db, o.db, fact, actor.actorId, correlationId, stamp)
  {
    hide LogEvent, Micro, Numeric18, Appends;
    var fact := OfferCreated(id, cmd.assetId, cmd.direction, cmd.quantity, cmd.price, cmd.windowStart, cmd.windowEnd);
    var o := CreateOffer(h, db, cmd, actor, id, correlationId, stamp);
    LoggedEvent(h, db.log, fact, actor.actorId, correlationId, stamp);
    AcceptedFits(cmd.quantity);
    AcceptedFits(cmd.price);
    if o.Done? {
      assert Told(h, o.db, o.db.log[|db.log|]);
      hide Told;
      assert TablesGrow(db, o.db, {OfferRow(id)});
      hide TablesGrow;
      AppendsOne(h, db, o.db, fact, actor.actorId, correlationId, stamp);
    }
  }

  /** The rows that `reserve_offer` writes. */
  predicate Takes(db: Db, b: Db, offerId: string, quantity: nat, actorId: string, key: string,
                  record: IdempotencyRecord, id: string) {
    && offerId in db.offers && offerId in b.offers
    && b == db.(reservations := db.reservations[id := Reservation(offerId, quantity, Reserved, actorId)],
                offers := db.offers[offerId := b.offers[offerId]], log := b.log,
                idempotency := db.idempotency[(ReserveOffer, key) := record])
  }

  lemma ReserveNewTakes(h: Hashes, db: Db, offerId: string, cmd: ReservationCreate, actor: Actor, key: string,
                        hash: string, id: string, stamp: Stamp)
    requires cmd.Accepted()
    ensures var o := ReserveNew(h, db, offerId, cmd, actor, key, hash, id, stamp);
            o.Done? ==>
              && Takes(db, o.db, offerId, Micro(cmd.quantity), actor.actorId, key, IdempotencyRecord(hash, id), id)
              && o.db.log == LogEvent(h, db.log, OfferTaken(id, offerId, cmd.quantity), actor.actorId, key, stamp)
  {
    hide LogEvent, Micro, Numeric18;
  }

  lemma TakesTold(h: Hashes, db: Db, b: Db, offerId: string, cmd: ReservationCreate, actorId: string, key: string,
                  id: string, stamp: Stamp)
    requires cmd.Accepted()
    requires Takes(db, b, offerId, Micro(cmd.quantity), actorId, key,
                   IdempotencyRecord(h.request(ReserveRequest(offerId, cmd.quantity, actorId)), id), id)
    requires b.log == LogEvent(h, db.log, OfferTaken(id, offerId, cmd.quantity), actorId, key, stamp)
    ensures Told(h, b, b.log[|db.log|])
  {
    LoggedEvent(h, db.log, OfferTaken(id, offerId, cmd.quantity), actorId, key, stamp);
    AcceptedFits(cmd.quantity);
    hide LogEvent, Micro, Numeric18, SixPlaces;
    assert ReservationTold(h, b, b.log[|db.log|]);
  }

  lemma TakesRows(db: Db, b: Db, offerId: string, quantity: nat, actorId: string, key: string,
                  record: IdempotencyRecord, id: string)
    requires Takes(db, b, offerId, quantity, actorId, key, record, id)
    ensures TablesGrow(db, b, {ReservationRow(id), RecordRow(ReserveOffer, key)})
  {
  }

  lemma ReserveWrites(h: Hashes, db: Db, offerId: string, cmd: ReservationCreate, actor: Actor, key: string, id: string,
                      stamp: Stamp)
    requires cmd.Accepted() && id !in db.reservations
    ensures var o := Reserve(h, db, offerId, cmd, actor, key, id, stamp);
            o.Done? && o.db != db ==>
              Wrote(h, db, o.db, OfferTaken(id, offerId, cmd.quantity), actor.actorId, key, stamp)
  {
    hide LogEvent, Micro, Numeric18, Blank, Appends, ReserveNew, Takes, Told, TablesGrow;
    var fact := OfferTaken(id, offerId, cmd.quantity);
    var hash := h.request(ReserveRequest(offerId, cmd.quantity, actor.actorId));
    var o := Reserve(h, db, offerId, cmd, actor, key, id, stamp);
    if o.Done? && o.db != db {
      assert (ReserveOffer, key) !in db.idempotency;
      ReserveNewTakes(h, db, offerId, cmd, actor, key, hash, id, stamp);
      hide Reserve;
      assert Micro(cmd.quantity) >= 0 by { AcceptedFits(cmd.quantity); }
      LoggedEvent(h, db.log, fact, actor.actorId, key, stamp);
      TakesTold(h, db, o.db, offerId, cmd, actor.actorId, key, id, stamp);
      TakesRows(db, o.db, offerId, Micro(cmd.quantity), actor.actorId, key, IdempotencyRecord(hash, id), id);
      AppendsOne(h, db, o.db, fact, actor.actorId, key, stamp);
    }
  }

  /** A message that nobody has touched since it was made. */
  predicate Fresh(m: Message, now: int) {
    && m.status == Pending && m.attempts == 0 && m.availableAt == now && m.createdAt == now && m.updatedAt == now
    && m.lockedBy.None? && m.leaseExpiresAt.None? && m.adapterReference.None? && m.lastError.None?
    && m.publishedAt.None?
  }

  lemma QueuedColumns(db: Db, signal: DispatchSignal, key: string, messageId: string, now: int)
    ensures var o := Enqueue(db, signal, key, messageId, now);
            o.Done? ==>
              && messageId in o.db.messages
              && o.db == db.(messages := db.messages[messageId := o.db.messages[messageId]])
              && var m := o.db.messages[messageId];
                 m.topic == "dispatch.publish" && m.aggregateId == signal.dispatchId && m.key == key && Fresh(m, now)
  {
    hide Blank, DispatchPayload, Fresh;
    var m := Message(DISPATCH_TOPIC, signal.dispatchId, key, DispatchPayload(signal), Pending, 0, now, None, None, None,
                     None, None, now, now);
    FreshMessage(m, now);
    var o := Enqueue(db, signal, key, messageId, now);
    if o.Done? { assert o.db.messages == db.messages[messageId := m]; }
  }

  lemma FreshMessage(m: Message, now: int)
    requires m == m.(status := Pending, attempts := 0, availableAt := now, leaseExpiresAt := None, lockedBy := None,
                     adapterReference := None, lastError := None, publishedAt := None, createdAt := now,
                     updatedAt := now)
    ensures Fresh(m, now)
  {
  }

  /** The rows that `issue_dispatch` writes, column by column. */
  predicate Queues(db: Db, b: Db, reservationId: string, cmd: DispatchCreate, actorId: string, key: string,
                   record: IdempotencyRecord, id: string, messageId: string, now: int)
    requires cmd.Accepted()
  {
    && reservationId in db.reservations && messageId in b.messages
    && b == db.(dispatches := db.dispatches[id := Dispatch(reservationId, Micro(cmd.target), cmd.startsAt.instant,
                                                           cmd.endsAt.instant, Queued, actorId,
                                                           "outbox:" + messageId)],
                reservations := b.reservations, messages := db.messages[messageId := b.messages[messageId]],
                log := b.log, idempotency := db.idempotency[(IssueDispatch, key) := record])
    && b.reservations.Keys == db.reservations.Keys
    && var m := b.messages[messageId];
       m.topic == "dispatch.publish" && m.aggregateId == id && m.key == key && Fresh(m, now)
  }

  lemma IssueNewQueues(h: Hashes, db: Db, reservationId: string, cmd: DispatchCreate, actor: Actor, key: string,
                       hash: string, id: string, messageId: string, stamp: Stamp)
    requires cmd.Accepted()
    ensures var o := IssueNew(h, db, reservationId, cmd, actor, key, hash, id, messageId, stamp);
            var fact := DispatchQueued(id, reservationId, cmd.target, cmd.startsAt, cmd.endsAt, messageId);
            o.Done? ==>
              && Queues(db, o.db, reservationId, cmd, actor.actorId, key, IdempotencyRecord(hash, id), id, messageId,
                        stamp.at)
              && o.db.log == LogEvent(h, db.log, fact, actor.actorId, key, stamp)
  {
    hide LogEvent, Micro, Numeric18, Enqueue;
    if reservationId in db.reservations && db.reservations[reservationId].offerId in db.offers {
      var offer := db.offers[db.reservations[reservationId].offerId];
      if offer.assetId in db.assets {
        QueuedColumns(db, DispatchSignal(id, db.assets[offer.assetId].externalId, cmd.target, cmd.startsAt, cmd.endsAt),
                      key, messageId, stamp.at);
      }
    }
  }

  lemma QueuesTold(h: Hashes, db: Db, b: Db, reservationId: string, cmd: DispatchCreate, actorId: string, key: string,
                   id: string, messageId: string, stamp: Stamp)
    requires cmd.Accepted()
    requires var hash := h.request(DispatchRequest(reservationId, cmd.target, cmd.startsAt, cmd.endsAt, actorId));
             Queues(db, b, reservationId, cmd, actorId, key, IdempotencyRecord(hash, id), id, messageId, stamp.at)
    requires var fact := DispatchQueued(id, reservationId, cmd.target, cmd.startsAt, cmd.endsAt, messageId);
             b.log == LogEvent(h, db.log, fact, actorId, key, stamp)
    ensures Told(h, b, b.log[|db.log|])
  {
    var fact := DispatchQueued(id, reservationId, cmd.target, cmd.startsAt, cmd.endsAt, messageId);
    LoggedEvent(h, db.log, fact, actorId, key, stamp);
    AcceptedFits(cmd.target);
    hide LogEvent, Micro, Numeric18, SixPlaces;
    assert b.dispatches[id].startsAt == cmd.startsAt.instant < cmd.endsAt.instant == b.dispatches[id].endsAt;
    assert DispatchTold(h, b, b.log[|db.log|]);
  }

  lemma QueuesRows(db: Db, b: Db, reservationId: string, cmd: DispatchCreate, actorId: string, key: string,
                   record: IdempotencyRecord, id: string, messageId: string, now: int)
    requires cmd.Accepted() && Queues(db, b, reservationId, cmd, actorId, key, record, id, messageId, now)
    ensures TablesGrow(db, b, {DispatchRow(id), MessageRow(messageId), RecordRow(IssueDispatch, key)})
  {
    hide Micro, Numeric18;
  }

  lemma IssueWritesEvent(h: Hashes, db: Db, reservationId: string, cmd: DispatchCreate, actor: Actor, key: string,
                         id: string, messageId: string, stamp: Stamp)
    requires cmd.Accepted() && id !in db.dispatches && messageId !in db.messages
    ensures var o := Issue(h, db, reservationId, cmd, actor, key, id, messageId, stamp);
            var fact := DispatchQueued(id, reservationId, cmd.target, cmd.startsAt, cmd.endsAt, messageId);
            o.Done? && o.db != db ==> Wrote(h, db, o.db, fact, actor.actorId, key, stamp)
  {
    hide LogEvent, Micro, Numeric18, Blank, Appends, IssueNew, Queues, Told, TablesGrow;
    var fact := DispatchQueued(id, reservationId, cmd.target, cmd.startsAt, cmd.endsAt, messageId);
    var hash := h.request(DispatchRequest(reservationId, cmd.target, cmd.startsAt, cmd.endsAt, actor.actorId));
    var o := Issue(h, db, reservationId, cmd, actor, key, id, messageId, stamp);
    if o.Done? && o.db != db {
      assert (IssueDispatch, key) !in db.idempotency;
      IssueNewQueues(h, db, reservationId, cmd, actor, key, hash, id, messageId, stamp);
      hide Issue;
      LoggedEvent(h, db.log, fact, actor.actorId, key, stamp);
      QueuesTold(h, db, o.db, reservationId, cmd, actor.actorId, key, id, messageId, stamp);
      QueuesRows(db, o.db, reservationId, cmd, actor.actorId, key, IdempotencyRecord(hash, id), id, messageId,
                 stamp.at);
      AppendsOne(h, db, o.db, fact, actor.actorId, key, stamp);
    }
  }

  /** The row that `record_meter_reading` writes. */
  predicate Reads(h: Hashes, db: Db, b: Db, cmd: MeterReadingCreate, actorId: string, id: string)
    requires cmd.Accepted()
  {
    && cmd.assetId in db.assets
    && b == db.(readings := db.readings[id :=
                  Reading(cmd.assetId, cmd.intervalStart.instant, cmd.intervalEnd.instant, Micro(cmd.energy),
                          cmd.source, h.reading(cmd), actorId)],
                log := b.log)
  }

  function ReadingFact(h: Hashes, cmd: MeterReadingCreate, id: string): Fact {
    ReadingRecorded(id, cmd.assetId, cmd.intervalStart, cmd.intervalEnd, cmd.energy, cmd.source, h.reading(cmd))
  }

  lemma ReadingShape(h: Hashes, db: Db, cmd: MeterReadingCreate, actor: Actor, id: string, stamp: Stamp)
    requires cmd.Accepted()
    ensures var o := RecordReading(h, db, cmd, actor, id, stamp);
            o.Done? && o.db != db ==>
              && Reads(h, db, o.db, cmd, actor.actorId, id)
              && o.db.log == LogEvent(h, db.log, ReadingFact(h, cmd, id), actor.actorId, h.reading(cmd), stamp)
  {
    hide LogEvent, Micro, Numeric18, ReadingWith;
  }

  lemma ReadsTold(h: Hashes, db: Db, b: Db, cmd: MeterReadingCreate, actorId: string, id: string, stamp: Stamp)
    requires cmd.Accepted() && Reads(h, db, b, cmd, actorId, id)
    requires b.log == LogEvent(h, db.log, ReadingFact(h, cmd, id), actorId, h.reading(cmd), stamp)
    ensures Told(h, b, b.log[|db.log|])
  {
    LoggedEvent(h, db.log, ReadingFact(h, cmd, id), actorId, h.reading(cmd), stamp);
    AcceptedFits(cmd.energy);
    assert cmd == MeterReadingCreate(cmd.assetId, cmd.intervalStart, cmd.intervalEnd, cmd.energy, cmd.source);
    hide LogEvent, Micro, Numeric18, SixPlaces;
    assert ReadingTold(h, b, b.log[|db.log|]);
  }

  lemma ReadsRows(h: Hashes, db: Db, b: Db, cmd: MeterReadingCreate, actorId: string, id: string)
    requires cmd.Accepted() && Reads(h, db, b, cmd, actorId, id)
    ensures TablesGrow(db, b, {ReadingRow(id)})
  {
    hide Micro, Numeric18;
  }

  lemma ReadingWrites(h: Hashes, db: Db, cmd: MeterReadingCreate, actor: Actor, id: string, stamp: Stamp)
    requires cmd.Accepted() && id !in db.readings
    ensures var o := RecordReading(h, db, cmd, actor, id, stamp);
            o.Done? && o.db != db ==>
              Wrote(h, db, o.db, ReadingFact(h, cmd, id), actor.actorId, h.reading(cmd), stamp)
  {
    hide LogEvent, Micro, Numeric18, Appends, RecordReading, Reads, Told, TablesGrow;
    var o := RecordReading(h, db, cmd, actor, id, stamp);
    ReadingShape(h, db, cmd, actor, id, stamp);
    if o.Done? && o.db != db {
      LoggedEvent(h, db.log, ReadingFact(h, cmd, id), actor.actorId, h.reading(cmd), stamp);
      ReadsTold(h, db, o.db, cmd, actor.actorId, id, stamp);
      ReadsRows(h, db, o.db, cmd, actor.actorId, id);
      AppendsOne(h, db, o.db, ReadingFact(h, cmd, id), actor.actorId, h.reading(cmd), stamp);
    }
  }

  lemma SettledTold(h: Hashes, db: Db, reservationId: string, dispatchId: string, readingIds: seq<string>, bill: Bill,
                    actor: Actor, key: string, id: string, stamp: Stamp)
    requires MaySettle(db, reservationId, dispatchId, readingIds, bill, actor.actorId, key)
    ensures var hash := h.request(SettleRequest(reservationId, actor.actorId));
            var b := Settled(h, db, reservationId, dispatchId, readingIds, bill, actor, key, hash, id, stamp);
            |b.log| == |db.log| + 1 && Told(h, b, b.log[|db.log|])
  {
    hide LogEvent, Blank, WindowReadings, Energies, Decimals.Settle;
    var offer := db.offers[db.reservations[reservationId].offerId];
    var fact := SettlementCalculated(id, reservationId, dispatchId, readingIds, FromColumn(bill.delivered),
                                     FromColumn(offer.price), FromColumn(bill.amount));
    LoggedEvent(h, db.log, fact, actor.actorId, key, stamp);
    hide FromColumn;
    var b := Settled(h, db, reservationId, dispatchId, readingIds, bill, actor, key,
                     h.request(SettleRequest(reservationId, actor.actorId)), id, stamp);
    assert SettlementTold(h, b, b.log[|db.log|]);
  }

  lemma SettledRows(h: Hashes, db: Db, reservationId: string, dispatchId: string, readingIds: seq<string>, bill: Bill,
                    actor: Actor, key: string, hash: string, id: string, stamp: Stamp)
    requires reservationId in db.reservations && db.reservations[reservationId].offerId in db.offers
    requires dispatchId in db.dispatches
    ensures var b := Settled(h, db, reservationId, dispatchId, readingIds, bill, actor, key, hash, id, stamp);
            TablesGrow(db, b, {SettlementRow(id), RecordRow(SettleReservation, key)})
  {
    hide LogEvent, FromColumn;
  }

  lemma SettledWrites(h: Hashes, db: Db, reservationId: string, dispatchId: string, readingIds: seq<string>, bill: Bill,
                      actor: Actor, key: string, id: string, stamp: Stamp)
    requires MaySettle(db, reservationId, dispatchId, readingIds, bill, actor.actorId, key) && id !in db.settlements
    ensures var hash := h.request(SettleRequest(reservationId, actor.actorId));
            var b := Settled(h, db, reservationId, dispatchId, readingIds, bill, actor, key, hash, id, stamp);
            WroteSettlement(h, db, b, reservationId, actor.actorId, key, id, stamp)
  {
    hide LogEvent, Told, TablesGrow, Blank, WindowReadings, Energies, Decimals.Settle, FromColumn, Appends;
    SettledTold(h, db, reservationId, dispatchId, readingIds, bill, actor, key, id, stamp);
    SettledRows(h, db, reservationId, dispatchId, readingIds, bill, actor, key,
                h.request(SettleRequest(reservationId, actor.actorId)), id, stamp);
    var b := Settled(h, db, reservationId, dispatchId, readingIds, bill, actor, key,
                     h.request(SettleRequest(reservationId, actor.actorId)), id, stamp);
    var fact := SettlementCalculated(id, reservationId, dispatchId, readingIds, FromColumn(bill.delivered),
                                     FromColumn(db.offers[db.reservations[reservationId].offerId].price),
                                     FromColumn(bill.amount));
    LoggedEvent(h, db.log, fact, actor.actorId, key, stamp);
    assert b.log == LogEvent(h, db.log, fact, actor.actorId, key, stamp);
    hide Settled, MaySettle;
    AppendsOne(h, db, b, fact, actor.actorId, key, stamp);
  }

  ghost predicate WroteSettlement(h: Hashes, db: Db, b: Db, reservationId: string, actorId: string, key: string,
                                  id: string, stamp: Stamp) {
    exists f :: Wrote(h, db, b, f, actorId, key, stamp) && f.SettlementCalculated? && f.settlementId == id
                && f.reservationId == reservationId
  }

  lemma SettleWritesEvent(h: Hashes, max: nat, db: Db, reservationId: string, actor: Actor, key: string, id: string,
                          stamp: Stamp)
    requires Inv(max, db) && id !in db.settlements
    ensures var o := Coordination.Settle(h, db, reservationId, actor, key, id, stamp);
            o.Done? && o.db != db ==> WroteSettlement(h, db, o.db, reservationId, actor.actorId, key, id, stamp)
  {
    hide Coordination.Settle, Inv, WroteSettlement, Settled, WindowReadings, Energies, Decimals.Settle, Blank;
    var o := Coordination.Settle(h, db, reservationId, actor, key, id, stamp);
    SettleShape(h, max, db, reservationId, actor, key, id, stamp);
    if o.Done? && o.db != db {
      var hash := h.request(SettleRequest(reservationId, actor.actorId));
      var dispatchId, readingIds, bill :|
        && MaySettle(db, reservationId, dispatchId, readingIds, bill, actor.actorId, key)
        && o.db == Settled(h, db, reservationId, dispatchId, readingIds, bill, actor, key, hash, id, stamp);
      SettledWrites(h, db, reservationId, dispatchId, readingIds, bill, actor, key, id, stamp);
    }
  }

  // ------------------------------------------------------- deliveries and recovery

  /** A transaction that makes no row. */
  lemma NoNewRows(db: Db, b: Db)
    requires b.assets.Keys == db.assets.Keys && b.offers.Keys == db.offers.Keys
    requires b.reservations.Keys == db.reservations.Keys && b.dispatches.Keys == db.dispatches.Keys
    requires b.readings.Keys == db.readings.Keys && b.settlements.Keys == db.settlements.Keys
    requires b.messages.Keys == db.messages.Keys && b.idempotency.Keys == db.idempotency.Keys
    ensures TablesGrow(db, b, {}) && SameRows(db, b)
  {
    RowsGrow(db, b, {});
  }

  lemma RedriveRows(h: Hashes, db: Db, actor: Actor, messageId: string, dispatchId: string, reason: string,
                    stamp: Stamp)
    ensures var o := Redrive(h, db, actor, messageId, dispatchId, reason, stamp);
            o.Done? ==>
              && messageId in db.messages && messageId in o.db.messages && dispatchId in o.db.dispatches
              && o.db.messages[messageId].aggregateId == dispatchId
              && var m := db.messages[messageId];
                 var error := if m.lastError.Some? then m.lastError.value else "";
                 && o.db.messages[messageId].key == m.key && TablesGrow(db, o.db, {})
                 && o.db.log == LogEvent(h, db.log,
                                         RedriveAuthorized(dispatchId, messageId, Joined(Words(reason)), m.attempts,
                                                           h.text(error)),
                                         actor.actorId, m.key, stamp)
  {
    hide LogEvent, Squeeze, Words, Joined, SameRows, TablesGrow;
    SqueezeJoins(reason);
    var o := Redrive(h, db, actor, messageId, dispatchId, reason, stamp);
    if o.Done? { NoNewRows(db, o.db); }
  }

  lemma RedriveWritesEvent(h: Hashes, db: Db, actor: Actor, messageId: string, dispatchId: string, reason: string,
                           stamp: Stamp)
    ensures var o := Redrive(h, db, actor, messageId, dispatchId, reason, stamp);
            o.Done? ==>
              && messageId in db.messages
              && var m := db.messages[messageId];
                 var error := if m.lastError.Some? then m.lastError.value else "";
                 Wrote(h, db, o.db, RedriveAuthorized(dispatchId, messageId, Joined(Words(reason)), m.attempts,
                                                      h.text(error)), actor.actorId, m.key, stamp)
  {
    hide LogEvent, Words, Joined, Appends, TablesGrow, Redrive;
    var o := Redrive(h, db, actor, messageId, dispatchId, reason, stamp);
    RedriveRows(h, db, actor, messageId, dispatchId, reason, stamp);
    if o.Done? {
      var m := db.messages[messageId];
      var error := if m.lastError.Some? then m.lastError.value else "";
      var fact := RedriveAuthorized(dispatchId, messageId, Joined(Words(reason)), m.attempts, h.text(error));
      LoggedEvent(h, db.log, fact, actor.actorId, m.key, stamp);
      AppendsOne(h, db, o.db, fact, actor.actorId, m.key, stamp);
    }
  }

  lemma ClaimGrows(h: Hashes, db: Db, cfg: WorkerConfig, token: string, stamp: Stamp)
    ensures Grows(h, db, Claim(db, cfg, token, stamp.at).db, stamp)
  {
    hide Claimable, SameRows, Appends, Leased;
    var b := Claim(db, cfg, token, stamp.at).db;
    assert b == db.(messages := b.messages) && b.messages.Keys == db.messages.Keys;
    hide Claim;
    NoNewRows(db, b);
  }

  lemma SuccessRows(h: Hashes, db: Db, cfg: WorkerConfig, c: ClaimedMessage, reference: string, stamp: Stamp)
    ensures var b := Committed(RecordSuccess(h, db, cfg, c, reference, stamp), db);
            TablesGrow(db, b, {}) && SameRows(db, b)
  {
    hide LogEvent, SameRows, TablesGrow, SystemActor;
    NoNewRows(db, Committed(RecordSuccess(h, db, cfg, c, reference, stamp), db));
  }

  lemma SuccessLog(h: Hashes, db: Db, cfg: WorkerConfig, c: ClaimedMessage, reference: string, stamp: Stamp)
    requires Faithful(db, c)
    ensures var o := RecordSuccess(h, db, cfg, c, reference, stamp);
            var b := Committed(o, db);
            if o.Done? && HoldsLease(db, c) then
              && c.aggregateId in b.dispatches && c.id in b.messages
              && b.messages[c.id].aggregateId == c.aggregateId && b.messages[c.id].key == c.key
              && b.log == LogEvent(h, db.log,
                                   DispatchPublished(c.aggregateId, c.id, reference, db.messages[c.id].attempts),
                                   SystemActor(cfg), c.key, stamp)
            else b.log == db.log
  {
    hide LogEvent, SystemActor;
  }

  lemma SuccessGrows(h: Hashes, db: Db, cfg: WorkerConfig, c: ClaimedMessage, reference: string, stamp: Stamp)
    requires Faithful(db, c)
    ensures Grows(h, db, Committed(RecordSuccess(h, db, cfg, c, reference, stamp), db), stamp)
  {
    hide LogEvent, SameRows, TablesGrow, Appends, SystemActor, RecordSuccess;
    SuccessRows(h, db, cfg, c, reference, stamp);
    SuccessLog(h, db, cfg, c, reference, stamp);
    if RecordSuccess(h, db, cfg, c, reference, stamp).Done? && HoldsLease(db, c) {
      var fact := DispatchPublished(c.aggregateId, c.id, reference, db.messages[c.id].attempts);
      LoggedEvent(h, db.log, fact, SystemActor(cfg), c.key, stamp);
      AppendsOne(h, db, Committed(RecordSuccess(h, db, cfg, c, reference, stamp), db), fact, SystemActor(cfg), c.key,
                 stamp);
    }
  }

  lemma RejectionRows(h: Hashes, db: Db, c: ClaimedMessage, fact: Fact, actorId: string, stamp: Stamp)
    requires c.aggregateId in db.dispatches
    ensures var b := Rejection(h, db, c, fact, actorId, stamp);
            && b.dispatches.Keys == db.dispatches.Keys && b.reservations.Keys == db.reservations.Keys
            && b.log == LogEvent(h, db.log, fact, actorId, c.key, stamp)
  {
    hide LogEvent;
  }

  lemma FailureRows(h: Hashes, db: Db, cfg: WorkerConfig, c: ClaimedMessage, error: string, stamp: Stamp)
    requires Faithful(db, c) && c.aggregateId in db.dispatches
    ensures var b := RecordFailure(h, db, cfg, c, error, stamp).db;
            && TablesGrow(db, b, {}) && SameRows(db, b)
            && c.id in b.messages && b.messages[c.id].aggregateId == c.aggregateId && b.messages[c.id].key == c.key
            && c.aggregateId in b.dispatches
            && b.log == if HoldsLease(db, c) && db.messages[c.id].attempts >= cfg.maxAttempts
                        then LogEvent(h, db.log,
                                      DeliveryFailed(c.aggregateId, c.id, db.messages[c.id].attempts, ErrorText(error)),
                                      SystemActor(cfg), c.key, stamp)
                        else db.log
  {
    hide LogEvent, SameRows, TablesGrow, SystemActor, ErrorText, RetryDelay, Rejection;
    var fact := DeliveryFailed(c.aggregateId, c.id, db.messages[c.id].attempts, ErrorText(error));
    var m := AfterFailure(db.messages[c.id], cfg, error, stamp.at);
    RejectionRows(h, db.(messages := db.messages[c.id := m]), c, fact, SystemActor(cfg), stamp);
    NoNewRows(db, RecordFailure(h, db, cfg, c, error, stamp).db);
  }

  lemma FailureGrows(h: Hashes, db: Db, cfg: WorkerConfig, c: ClaimedMessage, error: string, stamp: Stamp)
    requires Faithful(db, c) && c.aggregateId in db.dispatches
    ensures Grows(h, db, RecordFailure(h, db, cfg, c, error, stamp).db, stamp)
  {
    hide LogEvent, SameRows, Appends, SystemActor, ErrorText, RecordFailure;
    var b := RecordFailure(h, db, cfg, c, error, stamp).db;
    FailureRows(h, db, cfg, c, error, stamp);
    if HoldsLease(db, c) && db.messages[c.id].attempts >= cfg.maxAttempts {
      var fact := DeliveryFailed(c.aggregateId, c.id, db.messages[c.id].attempts, ErrorText(error));
      LoggedEvent(h, db.log, fact, SystemActor(cfg), c.key, stamp);
      hide TablesGrow;
      AppendsOne(h, db, b, fact, SystemActor(cfg), c.key, stamp);
    }
  }

  lemma FinalizedGrows(h: Hashes, max: nat, db: Db, f: Flight, stamp: Stamp)
    requires Inv(max, db) && Faithful(db, f.claimed) && f.response.Some?
    ensures Grows(h, db, Finalized(h, db, f, stamp), stamp)
  {
    hide Inv, Grows, RecordSuccess, RecordFailure;
    Behind(max, db, f.claimed.id);
    match f.response.value
    case Ack(reference) => SuccessGrows(h, db, f.cfg, f.claimed, reference, stamp);
    case Raise(error) => FailureGrows(h, db, f.cfg, f.claimed, error, stamp);
  }

  // ----------------------------------------------------------------- each step

  /** A command changes nothing, or appends the event that carries it out and makes the rows
      that the event tells of. */
  lemma CommandWrites(h: Hashes, max: nat, db: Db, c: Command, stamp: Stamp)
    requires Inv(max, db) && Admissible(db, c)
    ensures Accomplished(h, db, Perform(h, db, c, stamp), c, stamp)
  {
    hide Inv, Appends, RegisterAsset, CreateOffer, Reserve, Issue, RecordReading, Coordination.Settle, Redrive;
    match c
    case RegisterCommand(cmd, actor, id, correlationId) => RegisterWrites(h, db, cmd, actor, id, correlationId, stamp);
    case OfferCommand(cmd, actor, id, correlationId) => OfferWrites(h, db, cmd, actor, id, correlationId, stamp);
    case ReserveCommand(offerId, cmd, actor, key, id) => ReserveWrites(h, db, offerId, cmd, actor, key, id, stamp);
    case IssueCommand(reservationId, cmd, actor, key, id, messageId) =>
      IssueWritesEvent(h, db, reservationId, cmd, actor, key, id, messageId, stamp);
    case ReadingCommand(cmd, actor, id) => ReadingWrites(h, db, cmd, actor, id, stamp);
    case SettleCommand(reservationId, actor, key, id) =>
      SettleWritesEvent(h, max, db, reservationId, actor, key, id, stamp);
    case RedriveCommand(actor, messageId, dispatchId, reason) =>
      RedriveWritesEvent(h, db, actor, messageId, dispatchId, reason, stamp);
  }

  lemma NextGrows(h: Hashes, max: nat, w: World, step: Step, stamp: Stamp)
    requires WorldInv(h, max, w) && Enabled(max, w, step, stamp)
    ensures Grows(h, w.db, Next(h, max, w, step, stamp).db, stamp)
  {
    hide WorldInv, DbInv, TablesOk, Inv, Perform, Claim, Finalized, FlightsOk, Fenced, LocksOk, FailuresOk, Reached,
      HasRow, Appends, Commanded;
    Parts(h, max, w);
    DbHasInv(h, max, w.db);
    match step
    case Api(c) => CommandWrites(h, max, w.db, c, stamp);
    case ClaimStep(cfg, token) =>
      ClaimGrows(h, w.db, cfg, token, stamp);
      ClaimNone(w.db, cfg, token, stamp.at);
    case PublishStep(_, _, _) =>
    case FinalizeStep(token) =>
      TablesHave(max, w, w.clock);
      FlightFaithful(max, w, token);
      FinalizedGrows(h, max, w.db, w.flights[token], stamp);
    case CrashStep(_) =>
  }

  // ------------------------------------------------------------------ whole runs

  ghost predicate Made(log: seq<AuditEvent<Fact>>, r: RowName) {
    exists i :: 0 <= i < |log| && r in Makes(log[i])
  }

  /** Events are numbered from one, in order of time, under different ids. */
  predicate InOrder(log: seq<AuditEvent<Fact>>, clock: int) {
    && (forall i :: 0 <= i < |log| ==> log[i].sequence == i + 1 && log[i].hashed.occurredAt <= clock)
    && (forall i, j :: 0 <= i < j < |log| ==>
          && log[i].hashed.occurredAt <= log[j].hashed.occurredAt
          && log[i].hashed.eventId != log[j].hashed.eventId)
  }

  predicate OnceEach(log: seq<AuditEvent<Fact>>) {
    forall i, j :: 0 <= i < j < |log| ==> Makes(log[i]) !! Makes(log[j])
  }

  ghost predicate Recorded(h: Hashes, db: Db, clock: int) {
    && (forall i :: 0 <= i < |db.log| ==> Told(h, db, db.log[i]))
    && (forall r :: HasRow(db, r) <==> Made(db.log, r))
    && OnceEach(db.log) && InOrder(db.log, clock)
  }

  lemma GrowsRecorded(h: Hashes, a: Db, b: Db, clock: int, stamp: Stamp)
    requires Recorded(h, a, clock) && Extends(a, b) && Grows(h, a, b, stamp)
    requires stamp.at >= clock && FreshEvent(a, stamp.eventId)
    ensures Recorded(h, b, stamp.at)
  {
    hide Told, HasRow, Makes;
    forall i | 0 <= i < |a.log| ensures b.log[i] == a.log[i] && Told(h, b, b.log[i]) { ToldStays(h, a, b, a.log[i]); }
    hide Extends;
    forall r ensures HasRow(b, r) <==> Made(b.log, r) {
      if i :| 0 <= i < |a.log| && r in Makes(a.log[i]) { assert r in Makes(b.log[i]); }
      if |b.log| > |a.log| && r in Makes(b.log[|a.log|]) { assert Made(b.log, r); }
    }
    if |b.log| > |a.log| {
      forall i, r | 0 <= i < |a.log| && r in Makes(b.log[i]) ensures r !in Makes(b.log[|a.log|]) {
        assert Made(a.log, r);
      }
    }
  }

  lemma {:induction false} RecordedRun(h: Hashes, max: nat, w: World, run: seq<Event>)
    requires WorldInv(h, max, w) && max >= 1 && Legal(h, max, w, run) && Recorded(h, w.db, w.clock)
    ensures Recorded(h, EndOf(h, max, w, run).db, EndOf(h, max, w, run).clock)
    decreases |run|
  {
    hide WorldInv, Next, Recorded, Grows, Extends;
    if run != [] {
      var step, stamp := run[0].step, run[0].stamp;
      var next := Next(h, max, w, step, stamp);
      NextKeeps(h, max, w, step, stamp);
      NextExtends(h, max, w, step, stamp);
      NextGrows(h, max, w, step, stamp);
      ClockNext(h, max, w, step, stamp);
      hide Enabled;
      GrowsRecorded(h, w.db, next.db, w.clock, stamp);
      RecordedRun(h, max, next, run[1..]);
    }
  }

  /** In every reachable state each event of the log tells what its rows show, a row exists
      if and only if an event made it, no two events made the same row, and events are
      numbered from one in order of time. */
  lemma LogTellsRows(h: Hashes, max: nat, w: World)
    requires max >= 1 && Reachable(h, max, w)
    ensures forall i :: 0 <= i < |w.db.log| ==> Told(h, w.db, w.db.log[i])
    ensures forall r :: HasRow(w.db, r) <==> Made(w.db.log, r)
    ensures OnceEach(w.db.log) && InOrder(w.db.log, w.clock)
  {
    hide WorldInv, Legal, EndOf, Told, Makes;
    var clock, run :| Legal(h, max, Start(clock), run) && w == EndOf(h, max, Start(clock), run);
    StartOk(h, max, clock);
    assert Recorded(h, EMPTY_DB, clock);
    RecordedRun(h, max, Start(clock), run);
  }
}
