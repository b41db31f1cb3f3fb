/** When each operation answers what: in every reachable state each refusal, each replay and
    each success has exactly one cause that a caller can see. */
module Answers {
  import opened Wrappers
  import opened Text
  import opened Decimals
  import opened Signals
  import opened Domain
  import opened Outbox
  import opened Coordination
  import opened Invariants
  import opened Preservation
  import opened CommandPreservation
  import opened Replay
  import opened Evidence
  import opened Machine
  import opened MachineInvariants
  import opened Guarantees
  import opened Origins

  // ------------------------------------------------------------- idempotency

  /** The key was used for a request with this hash. */
  predicate Repeated(db: Db, op: Operation, key: string, requestHash: string) {
    (op, key) in db.idempotency && db.idempotency[(op, key)].requestHash == requestHash
  }

  predicate Clashes(db: Db, op: Operation, key: string, requestHash: string) {
    (op, key) in db.idempotency && db.idempotency[(op, key)].requestHash != requestHash
  }

  /** A lookup is refused for a blank key or a key used otherwise, and replays exactly a
      repeated request. */
  lemma LookupAnswer(max: nat, db: Db, op: Operation, key: string, hash: string)
    requires Inv(max, db)
    ensures var r := IdempotentResource(db, op, key, hash);
            && (r == Refused(BlankIdempotencyKey) <==> Blank(key))
            && (r == Refused(KeyReusedForOtherRequest) <==> !Blank(key) && Clashes(db, op, key, hash))
            && (r.Replay? <==> !Blank(key) && Repeated(db, op, key, hash))
            && (r.Replay? ==> r.resourceId == db.idempotency[(op, key)].resourceId)
            && (r == Unseen <==> !Blank(key) && (op, key) !in db.idempotency)
  {
    hide Inv, Blank, IdempotentResource;
    LookupIs(max, db, op, key, hash);
  }

  lemma LookupIs(max: nat, db: Db, op: Operation, key: string, hash: string)
    requires Inv(max, db)
    ensures IdempotentResource(db, op, key, hash)
            == if Blank(key) then Refused(BlankIdempotencyKey)
               else if (op, key) !in db.idempotency then Unseen
               else if db.idempotency[(op, key)].requestHash != hash then Refused(KeyReusedForOtherRequest)
               else Replay(db.idempotency[(op, key)].resourceId)
  {
    LookupOutcome(max, db, op, key, hash);
    hide Inv, Blank, ResourceExists;
  }

  // ------------------------------------------------------------ reserve_offer

  /** An offer is open if and only if no reservation is for it. */
  lemma OpenMeansUntaken(max: nat, db: Db, offerId: string)
    requires Inv(max, db) && offerId in db.offers
    ensures db.offers[offerId].status == Open <==> !HasReservation(db.reservations, offerId)
  {
    hide OffersOk, ReservationsOk, DispatchesOk, SettlementsOk, MessagesOk, JointStatus, ReservationStages,
      DispatchStages, Payloads, KeysRecorded, RecordsOk, HasReservation;
  }

  /** `reserve_offer` makes a reservation if and only if a market operator asks under a real
      key not used before for an offer that nobody has reserved, and for no more than it
      offers; otherwise it replays, or fails for the first of these that is missing. */
  lemma ReserveExactly(h: Hashes, max: nat, w: World, offerId: string, cmd: ReservationCreate, actor: Actor,
                       key: string, newId: string, stamp: Stamp)
    requires max >= 1 && Reachable(h, max, w) && cmd.Accepted()
    ensures var o := Reserve(h, w.db, offerId, cmd, actor, key, newId, stamp);
            var hash := h.request(ReserveRequest(offerId, cmd.quantity, actor.actorId));
            var mayAsk := actor.role == MarketOperator && !Blank(key);
            var isNew := mayAsk && (ReserveOffer, key) !in w.db.idempotency;
            var free := isNew && offerId in w.db.offers && !HasReservation(w.db.reservations, offerId);
            && (o == Failed(RoleForbidden) <==> actor.role != MarketOperator)
            && (o == Failed(BlankIdempotencyKey) <==> actor.role == MarketOperator && Blank(key))
            && (o == Failed(KeyReusedForOtherRequest) <==> mayAsk && Clashes(w.db, ReserveOffer, key, hash))
            && (o.Done? && o.db == w.db <==> mayAsk && Repeated(w.db, ReserveOffer, key, hash))
            && (o == Failed(OfferNotFound) <==> isNew && offerId !in w.db.offers)
            && (o == Failed(OfferNotOpen) <==>
                  isNew && offerId in w.db.offers && HasReservation(w.db.reservations, offerId))
            && (o == Failed(ReservationExceedsOffer) <==> free && Micro(cmd.quantity) > w.db.offers[offerId].quantity)
            && (o.Done? && o.db != w.db <==> free && Micro(cmd.quantity) <= w.db.offers[offerId].quantity)
            && (o.Done? ==> o.value == if o.db == w.db then w.db.idempotency[(ReserveOffer, key)].resourceId else newId)
  {
    hide Reachable, Inv, TablesOk, LogInv, EvidenceInv, Blank, LogEvent, Micro, IdempotentResource, HasReservation;
    ReachableParts(h, max, w);
    LookupAnswer(max, w.db, ReserveOffer, key, h.request(ReserveRequest(offerId, cmd.quantity, actor.actorId)));
    hide Clashes, Repeated;
    if offerId in w.db.offers {
      OpenMeansUntaken(max, w.db, offerId);
      NoneMeansNone(w.db.reservations, offerId);
    }
  }

  lemma NoneMeansNone(reservations: Reservations, offerId: string)
    ensures HasReservation(reservations, offerId) <==>
              exists r :: r in reservations && reservations[r].offerId == offerId
  {
  }

  // ----------------------------------------------------------- issue_dispatch

  /** A reservation awaits its dispatch if and only if no dispatch is for it. */
  lemma ReservedMeansUndispatched(max: nat, db: Db, reservationId: string)
    requires Inv(max, db) && reservationId in db.reservations
    ensures db.reservations[reservationId].status == Reserved <==> !HasDispatch(db.dispatches, reservationId)
    ensures HasDispatch(db.dispatches, reservationId) <==>
              exists d :: d in db.dispatches && db.dispatches[d].reservationId == reservationId
  {
    hide OffersOk, ReservationsOk, DispatchesOk, SettlementsOk, MessagesOk, JointStatus, OfferStages, DispatchStages,
      Payloads, KeysRecorded, RecordsOk, HasSettlement;
  }

  /** What stands in the way of dispatching a reservation, in the order of the checks. */
  function DispatchObstacle(db: Db, reservationId: string, cmd: DispatchCreate): (r: Option<Error>)
    requires cmd.Accepted() && reservationId in db.reservations
    requires db.reservations[reservationId].offerId in db.offers
    ensures r.Some? ==> r.value in {ReservationNotReserved, DispatchExceedsReservation, DispatchOutsideOffer}
  {
    var r := db.reservations[reservationId];
    if exists d :: d in db.dispatches && db.dispatches[d].reservationId == reservationId then
      Some(ReservationNotReserved)
    else if Micro(cmd.target) > r.quantity then Some(DispatchExceedsReservation)
    else if !(db.offers[r.offerId].windowStart <= cmd.startsAt.instant
              && cmd.endsAt.instant <= db.offers[r.offerId].windowEnd) then Some(DispatchOutsideOffer)
    else None
  }

  /** `issue_dispatch` makes a dispatch if and only if a market operator asks under a real
      key not used before for a reservation without a dispatch, for no more than it reserves
      and inside the offered window; otherwise it replays, or fails for the first of these
      that is missing. */
  lemma IssueExactly(h: Hashes, max: nat, w: World, reservationId: string, cmd: DispatchCreate, actor: Actor,
                     key: string, newId: string, messageId: string, stamp: Stamp)
    requires max >= 1 && Reachable(h, max, w) && cmd.Accepted()
    ensures reservationId in w.db.reservations ==> w.db.reservations[reservationId].offerId in w.db.offers
    ensures var o := Issue(h, w.db, reservationId, cmd, actor, key, newId, messageId, stamp);
            var hash := h.request(DispatchRequest(reservationId, cmd.target, cmd.startsAt, cmd.endsAt, actor.actorId));
            var mayAsk := actor.role == MarketOperator && !Blank(key);
            var isNew := mayAsk && (IssueDispatch, key) !in w.db.idempotency;
            && (o == Failed(RoleForbidden) <==> actor.role != MarketOperator)
            && (o == Failed(BlankIdempotencyKey) <==> actor.role == MarketOperator && Blank(key))
            && (o == Failed(KeyReusedForOtherRequest) <==> mayAsk && Clashes(w.db, IssueDispatch, key, hash))
            && (o.Done? && o.db == w.db <==> mayAsk && Repeated(w.db, IssueDispatch, key, hash))
            && (o == Failed(ReservationNotFound) <==> isNew && reservationId !in w.db.reservations)
            && (forall e :: e in {ReservationNotReserved, DispatchExceedsReservation, DispatchOutsideOffer} ==>
                  (o == Failed(e) <==>
                     isNew && reservationId in w.db.reservations
                     && DispatchObstacle(w.db, reservationId, cmd) == Some(e)))
            && (o.Done? && o.db != w.db <==>
                  isNew && reservationId in w.db.reservations && DispatchObstacle(w.db, reservationId, cmd).None?)
            && (o.Done? ==>
                  o.value == if o.db == w.db then w.db.idempotency[(IssueDispatch, key)].resourceId else newId)
  {
    hide Reachable, Inv, TablesOk, LogInv, EvidenceInv, Blank, LogEvent, Micro, IdempotentResource, HasDispatch,
      IssueNew, DispatchObstacle;
    ReachableParts(h, max, w);
    var hash := h.request(DispatchRequest(reservationId, cmd.target, cmd.startsAt, cmd.endsAt, actor.actorId));
    LookupAnswer(max, w.db, IssueDispatch, key, hash);
    hide Clashes, Repeated;
    if reservationId in w.db.reservations { BehindReservation(max, w.db, reservationId); }
    if (IssueDispatch, key) !in w.db.idempotency && !Blank(key) {
      IssueNewExactly(h, max, w.db, reservationId, cmd, actor, key, hash, newId, messageId, stamp);
    }
  }

  lemma IssueNewExactly(h: Hashes, max: nat, db: Db, reservationId: string, cmd: DispatchCreate, actor: Actor,
                        key: string, hash: string, newId: string, messageId: string, stamp: Stamp)
    requires Inv(max, db) && cmd.Accepted() && (IssueDispatch, key) !in db.idempotency && !Blank(key)
    ensures var o := IssueNew(h, db, reservationId, cmd, actor, key, hash, newId, messageId, stamp);
            if reservationId !in db.reservations then o == Failed(ReservationNotFound)
            else
              && db.reservations[reservationId].offerId in db.offers
              && match DispatchObstacle(db, reservationId, cmd)
                 case Some(e) => o == Failed(e)
                 case None => o.Done? && o.db != db && o.value == newId
  {
    hide Inv, Blank, LogEvent, Micro, HasDispatch, DispatchPayload;
    if reservationId in db.reservations {
      BehindReservation(max, db, reservationId);
      ReservedMeansUndispatched(max, db, reservationId);
      if db.reservations[reservationId].status == Reserved { IssueNoClash(max, db, reservationId, key); }
    }
  }

  /** `enqueue_dispatch` refuses a blank key and a key that a dispatch message has, and
      otherwise adds one message that carries the signal, waits from now on and shows no
      attempt. */
  lemma EnqueueExactly(db: Db, signal: DispatchSignal, key: string, messageId: string, now: int)
    ensures var o := Enqueue(db, signal, key, messageId, now);
            var used := exists x :: x in db.messages && db.messages[x].topic == "dispatch.publish"
                                    && db.messages[x].key == key;
            && (o == Failed(BlankOutboxKey) <==> Blank(key)) && (o == Failed(IntegrityError) <==> !Blank(key) && used)
            && (o.Done? <==> !Blank(key) && !used)
            && (o.Done? ==>
                  && o.value == messageId && messageId in o.db.messages
                  && o.db == db.(messages := db.messages[messageId := o.db.messages[messageId]])
                  && var m := o.db.messages[messageId];
                     && m.topic == "dispatch.publish" && m.aggregateId == signal.dispatchId && m.key == key
                     && m.payload == DispatchPayload(signal) && Fresh(m, now))
  {
    hide Blank, DispatchPayload;
  }

  // ------------------------------------------------------ assets, offers, readings

  /** `register_asset` fails for a role, for another's asset and for a known external id, in
      this order, and succeeds otherwise. */
  lemma RegisterExactly(h: Hashes, db: Db, cmd: AssetCreate, actor: Actor, newId: string, correlationId: string,
                        stamp: Stamp)
    requires cmd.Accepted()
    ensures var o := RegisterAsset(h, db, cmd, actor, newId, correlationId, stamp);
            var mine := actor.role == AssetOwner && cmd.ownerId == actor.actorId;
            var known := exists a :: a in db.assets && db.assets[a].externalId == cmd.externalId;
            && (o == Failed(RoleForbidden) <==> actor.role != AssetOwner)
            && (o == Failed(NotAssetOwner) <==> actor.role == AssetOwner && cmd.ownerId != actor.actorId)
            && (o == Failed(DuplicateExternalId) <==> mine && known)
            && (o.Done? <==> mine && !known) && (o.Done? ==> o.value == newId)
  {
    hide LogEvent, Micro;
  }

  /** `create_offer` fails for a role, a missing asset, another's asset, a suspended asset and
      too large a quantity, in this order, and succeeds otherwise. */
  lemma OfferExactly(h: Hashes, db: Db, cmd: OfferCreate, actor: Actor, newId: string, correlationId: string,
                     stamp: Stamp)
    requires cmd.Accepted()
    ensures var o := CreateOffer(h, db, cmd, actor, newId, correlationId, stamp);
            var found := actor.role == AssetOwner && cmd.assetId in db.assets;
            var mine := found && db.assets[cmd.assetId].ownerId == actor.actorId;
            var active := mine && db.assets[cmd.assetId].status == Active;
            && (o == Failed(RoleForbidden) <==> actor.role != AssetOwner)
            && (o == Failed(AssetNotFound) <==> actor.role == AssetOwner && cmd.assetId !in db.assets)
            && (o == Failed(NotAssetOwner) <==> found && db.assets[cmd.assetId].ownerId != actor.actorId)
            && (o == Failed(AssetSuspended) <==> mine && db.assets[cmd.assetId].status != Active)
            && (o == Failed(OfferExceedsCapacity) <==>
                  active && Micro(cmd.quantity) > db.assets[cmd.assetId].capacity)
            && (o.Done? <==> active && Micro(cmd.quantity) <= db.assets[cmd.assetId].capacity)
            && (o.Done? ==> o.value == newId)
  {
    hide LogEvent, Micro;
  }

  /** No operation ever suspends an asset. */
  lemma AssetsStayActive(h: Hashes, max: nat, w: World, id: string)
    requires max >= 1 && Reachable(h, max, w) && id in w.db.assets
    ensures w.db.assets[id].status == Active
  {
    hide Reachable, OnceEach, InOrder, HasRow, Told, Made;
    LogTellsRows(h, max, w);
    NeverSuspended(h, w.db, id);
  }

  lemma NeverSuspended(h: Hashes, db: Db, id: string)
    requires id in db.assets && forall r :: HasRow(db, r) ==> Made(db.log, r)
    requires forall i :: 0 <= i < |db.log| ==> Told(h, db, db.log[i])
    ensures db.assets[id].status == Active
  {
    assert HasRow(db, AssetRow(id));
    var i :| 0 <= i < |db.log| && AssetRow(id) in Makes(db.log[i]);
    assert Told(h, db, db.log[i]) && AssetTold(db, db.log[i]);
  }

  // ------------------------------------------------------- settle_reservation

  /** The published message of a reservation's dispatch. */
  predicate DeliveredBy(db: Db, reservationId: string, d: string, m: string) {
    && m in db.messages && db.messages[m].status == Published && db.messages[m].aggregateId == d
    && d in db.dispatches && db.dispatches[d].reservationId == reservationId
  }

  ghost predicate DeliveredUnsettled(db: Db, reservationId: string) {
    (exists d, m :: DeliveredBy(db, reservationId, d, m)) && !HasSettlement(db.settlements, reservationId)
  }

  /** A reservation is dispatched if and only if its dispatch was published and it is not
      settled. */
  lemma DispatchedMeansDelivered(h: Hashes, max: nat, w: World, reservationId: string)
    requires max >= 1 && Reachable(h, max, w) && reservationId in w.db.reservations
    ensures w.db.reservations[reservationId].status == Dispatched <==> DeliveredUnsettled(w.db, reservationId)
  {
    hide Reachable, Inv, TablesOk, LogInv, EvidenceInv, HasSettlement, DeliveredBy;
    ReachableParts(h, max, w);
    StageOf(max, w.db, reservationId);
    if w.db.reservations[reservationId].status == Dispatched {
      var d := DispatchOf(w.db, reservationId).value;
      StatusesAgree(h, max, w, d);
      var m :| m in w.db.messages && w.db.messages[m].aggregateId == d;
      assert DeliveredBy(w.db, reservationId, d, m) by { DeliveredHas(w.db, reservationId, d, m); }
    }
    forall d, m | DeliveredBy(w.db, reservationId, d, m)
      ensures w.db.reservations[reservationId].status in {Dispatched, ReservationCompleted}
    {
      DeliveredMeans(w.db, reservationId, d, m);
      StatusesAgree(h, max, w, d);
    }
  }

  lemma DeliveredHas(db: Db, reservationId: string, d: string, m: string)
    requires m in db.messages && db.messages[m].status == Published && db.messages[m].aggregateId == d
    requires d in db.dispatches && db.dispatches[d].reservationId == reservationId
    ensures DeliveredBy(db, reservationId, d, m)
  {
  }

  lemma DeliveredMeans(db: Db, reservationId: string, d: string, m: string)
    requires DeliveredBy(db, reservationId, d, m)
    ensures m in db.messages && db.messages[m].status == Published && db.messages[m].aggregateId == d
    ensures d in db.dispatches && db.dispatches[d].reservationId == reservationId
  {
  }

  lemma StageOf(max: nat, db: Db, reservationId: string)
    requires Inv(max, db) && reservationId in db.reservations
    ensures db.reservations[reservationId].status == ReservationCompleted <==>
              HasSettlement(db.settlements, reservationId)
    ensures db.reservations[reservationId].status == Dispatched ==> DispatchOf(db, reservationId).Some?
  {
    if db.reservations[reservationId].status == Dispatched { DispatchedReady(max, db, reservationId); }
    hide OffersOk, ReservationsOk, DispatchesOk, SettlementsOk, MessagesOk, JointStatus, OfferStages, DispatchStages,
      Payloads, KeysRecorded, RecordsOk, HasDispatch, HasSettlement, DispatchOf;
  }

  /** A reading of the offered asset that lies in the dispatch window. */
  predicate Inside(db: Db, reservationId: string, d: string, r: string) {
    && reservationId in db.reservations && db.reservations[reservationId].offerId in db.offers
    && d in db.dispatches && r in db.readings
    && db.readings[r].assetId == db.offers[db.reservations[reservationId].offerId].assetId
    && db.dispatches[d].startsAt <= db.readings[r].intervalStart
    && db.readings[r].intervalEnd <= db.dispatches[d].endsAt
  }

  /** A list of all of them, each once. */
  ghost predicate ListsInside(db: Db, reservationId: string, d: string, ids: seq<string>) {
    && (forall r :: r in ids <==> Inside(db, reservationId, d, r))
    && (forall i, j :: 0 <= i < j < |ids| ==> ids[i] != ids[j])
  }

  lemma WindowListsInside(db: Db, reservationId: string, d: string)
    requires reservationId in db.reservations && db.reservations[reservationId].offerId in db.offers
    requires d in db.dispatches
    ensures var assetId := db.offers[db.reservations[reservationId].offerId].assetId;
            ListsInside(db, reservationId, d, WindowReadings(db.readings, assetId, db.dispatches[d].startsAt,
                                                             db.dispatches[d].endsAt))
  {
    var assetId := db.offers[db.reservations[reservationId].offerId].assetId;
    var from, till := db.dispatches[d].startsAt, db.dispatches[d].endsAt;
    var ids := WindowReadings(db.readings, assetId, from, till);
    hide WindowReadings;
    forall r ensures r in ids <==> Inside(db, reservationId, d, r) {
      WindowExactly(db.readings, assetId, from, till, r);
    }
    forall i, j | 0 <= i < j < |ids| ensures ids[i] != ids[j] {
      WindowOrder(db.readings, assetId, from, till, i, j);
      LessIrreflexive(ids[i]);
    }
  }

  /** The actor reserved, or issued the dispatch. */
  predicate Involved(db: Db, reservationId: string, d: string, actorId: string)
    requires reservationId in db.reservations && d in db.dispatches
  {
    actorId == db.reservations[reservationId].requestedBy || actorId == db.dispatches[d].issuedBy
  }

  /** The answer for a delivered, unsettled reservation: d is its dispatch and ids lists the
      readings inside the window. */
  ghost predicate SettleAnswer(db: Db, o: Outcome<string>, reservationId: string, d: string, ids: seq<string>,
                               actorId: string, newId: string) {
    && reservationId in db.reservations && d in db.dispatches && db.dispatches[d].reservationId == reservationId
    && db.reservations[reservationId].offerId in db.offers && ListsInside(db, reservationId, d, ids)
    && var price := db.offers[db.reservations[reservationId].offerId].price;
       if Involved(db, reservationId, d, actorId) then o == Failed(NotSeparateActor)
       else if ids == [] then o == Failed(NoReadings)
       else
         && (forall i :: 0 <= i < |ids| ==> ids[i] in db.readings)
         && var bill := ExactBill(Energies(db.readings, ids), price);
            if !BillFits(bill) then o == Failed(ArithmeticOverflow)
            else
              && o.Done? && o.db != db && o.value == newId && newId in o.db.settlements
              && o.db.settlements[newId].manifest.readingIds == ids
              && o.db.settlements[newId].delivered == bill.delivered
              && o.db.settlements[newId].amount == bill.amount && o.db.settlements[newId].price == price
  }

  lemma SettleNewExactly(h: Hashes, max: nat, w: World, reservationId: string, actor: Actor, key: string, hash: string,
                         newId: string, stamp: Stamp)
    returns (d: string, ids: seq<string>)
    requires max >= 1 && Reachable(h, max, w) && (SettleReservation, key) !in w.db.idempotency && !Blank(key)
    requires reservationId in w.db.reservations && DeliveredUnsettled(w.db, reservationId)
    ensures SettleAnswer(w.db, SettleNew(h, w.db, reservationId, actor, key, hash, newId, stamp), reservationId, d, ids,
                         actor.actorId, newId)
  {
    hide Reachable, Inv, TablesOk, LogInv, EvidenceInv, Blank, Settled, DispatchOf, WindowReadings, Energies,
      Decimals.Settle, DeliveredUnsettled, ListsInside, ExactBill, BillFits, HasSettlement;
    ReachableParts(h, max, w);
    DispatchedMeansDelivered(h, max, w, reservationId);
    DispatchedReady(max, w.db, reservationId);
    d := DispatchOf(w.db, reservationId).value;
    StatusesAgree(h, max, w, d);
    var offer := w.db.offers[w.db.reservations[reservationId].offerId];
    ids := WindowReadings(w.db.readings, offer.assetId, w.db.dispatches[d].startsAt, w.db.dispatches[d].endsAt);
    WindowListsInside(w.db, reservationId, d);
    SettleIsExact(Energies(w.db.readings, ids), offer.price);
    if BillFits(ExactBill(Energies(w.db.readings, ids), offer.price)) {
      SettledFigures(h, w.db, reservationId, d, ids, ExactBill(Energies(w.db.readings, ids), offer.price), actor, key,
                     hash, newId, stamp);
    }
  }

  lemma SettledFigures(h: Hashes, db: Db, reservationId: string, d: string, ids: seq<string>, bill: Bill, actor: Actor,
                       key: string, hash: string, newId: string, stamp: Stamp)
    requires reservationId in db.reservations && db.reservations[reservationId].offerId in db.offers
    requires d in db.dispatches
    ensures var b := Settled(h, db, reservationId, d, ids, bill, actor, key, hash, newId, stamp);
            && b != db && newId in b.settlements && b.settlements[newId].manifest.readingIds == ids
            && b.settlements[newId].delivered == bill.delivered && b.settlements[newId].amount == bill.amount
            && b.settlements[newId].price == db.offers[db.reservations[reservationId].offerId].price
  {
    var b := Settled(h, db, reservationId, d, ids, bill, actor, key, hash, newId, stamp);
    assert |b.log| == |db.log| + 1;
  }

  /** `settle_reservation` makes a settlement if and only if an analyst asks under a real key
      not used before for a reservation whose dispatch was published and that is not
      settled, was involved in neither step before, and the window holds readings whose
      exact figures fit; the settlement then lists those readings and bills those figures.
      Otherwise it replays, or fails for the first of these that is missing. */
  lemma SettleExactly(h: Hashes, max: nat, w: World, reservationId: string, actor: Actor, key: string, newId: string,
                      stamp: Stamp)
    returns (d: string, ids: seq<string>)
    requires max >= 1 && Reachable(h, max, w)
    ensures var o := Coordination.Settle(h, w.db, reservationId, actor, key, newId, stamp);
            var hash := h.request(SettleRequest(reservationId, actor.actorId));
            var mayAsk := actor.role == SettlementAnalyst && !Blank(key);
            var isNew := mayAsk && (SettleReservation, key) !in w.db.idempotency;
            && (o == Failed(RoleForbidden) <==> actor.role != SettlementAnalyst)
            && (o == Failed(BlankIdempotencyKey) <==> actor.role == SettlementAnalyst && Blank(key))
            && (o == Failed(KeyReusedForOtherRequest) <==> mayAsk && Clashes(w.db, SettleReservation, key, hash))
            && (o.Done? && o.db == w.db <==> mayAsk && Repeated(w.db, SettleReservation, key, hash))
            && (o.Done? && o.db == w.db ==> o.value == w.db.idempotency[(SettleReservation, key)].resourceId)
            && (o == Failed(ReservationNotFound) <==> isNew && reservationId !in w.db.reservations)
            && (o == Failed(ReservationNotDispatched) <==>
                  isNew && reservationId in w.db.reservations && !DeliveredUnsettled(w.db, reservationId))
            && (isNew && reservationId in w.db.reservations && DeliveredUnsettled(w.db, reservationId) ==>
                  SettleAnswer(w.db, o, reservationId, d, ids, actor.actorId, newId))
  {
    hide Reachable, Inv, TablesOk, LogInv, EvidenceInv, Blank, SettleNew, IdempotentResource, DeliveredUnsettled,
      SettleAnswer;
    ReachableParts(h, max, w);
    var hash := h.request(SettleRequest(reservationId, actor.actorId));
    LookupAnswer(max, w.db, SettleReservation, key, hash);
    hide Clashes, Repeated;
    d, ids := "", [];
    if (SettleReservation, key) !in w.db.idempotency && !Blank(key) {
      if reservationId in w.db.reservations && DeliveredUnsettled(w.db, reservationId) {
        d, ids := SettleNewExactly(h, max, w, reservationId, actor, key, hash, newId, stamp);
        AnswerKinds(w.db, SettleNew(h, w.db, reservationId, actor, key, hash, newId, stamp), reservationId, d, ids,
                    actor.actorId, newId);
      } else {
        NotYetSettled(h, max, w, reservationId, actor, key, hash, newId, stamp);
      }
    }
  }

  lemma AnswerKinds(db: Db, o: Outcome<string>, reservationId: string, d: string, ids: seq<string>, actorId: string,
                    newId: string)
    requires SettleAnswer(db, o, reservationId, d, ids, actorId, newId)
    ensures o.Done? ==> o.db != db
    ensures o.Failed? ==> o.error in {NotSeparateActor, NoReadings, ArithmeticOverflow}
  {
    hide ListsInside, Energies, ExactBill, BillFits;
  }

  lemma NotYetSettled(h: Hashes, max: nat, w: World, reservationId: string, actor: Actor, key: string, hash: string,
                      newId: string, stamp: Stamp)
    requires max >= 1 && Reachable(h, max, w)
    requires !(reservationId in w.db.reservations && DeliveredUnsettled(w.db, reservationId))
    ensures SettleNew(h, w.db, reservationId, actor, key, hash, newId, stamp)
            == Failed(if reservationId in w.db.reservations then ReservationNotDispatched else ReservationNotFound)
  {
    hide Reachable, DeliveredUnsettled, Settled, DispatchOf, WindowReadings, Energies, Decimals.Settle;
    if reservationId in w.db.reservations { DispatchedMeansDelivered(h, max, w, reservationId); }
  }

  // ----------------------------------------------------------------- re-drive

  /** A re-drive is refused for its first missing condition and never for another reason. */
  lemma RedriveExactly(h: Hashes, max: nat, w: World, actor: Actor, messageId: string, dispatchId: string,
                       reason: string, stamp: Stamp)
    requires max >= 1 && Reachable(h, max, w)
    ensures var o := Redrive(h, w.db, actor, messageId, dispatchId, reason, stamp);
            var mayAsk := actor.role == RecoveryOperator && |Joined(Words(reason))| >= 12;
            var found := mayAsk && messageId in w.db.messages;
            && (o == Failed(RoleForbidden) <==> actor.role != RecoveryOperator)
            && (o == Failed(ReasonTooShort) <==> actor.role == RecoveryOperator && |Joined(Words(reason))| < 12)
            && (o == Failed(MessageNotFound) <==> mayAsk && messageId !in w.db.messages)
            && (o == Failed(IdentifierMismatch) <==> found && w.db.messages[messageId].aggregateId != dispatchId)
            && (o == Failed(MessageNotDead) <==>
                  found && w.db.messages[messageId].aggregateId == dispatchId
                  && w.db.messages[messageId].status != Dead)
            && (o.Done? <==>
                  found && w.db.messages[messageId].aggregateId == dispatchId
                  && w.db.messages[messageId].status == Dead)
            && (o.Done? ==>
                  o.value == RedriveAuthorization(messageId, dispatchId, w.db.messages[messageId].key,
                                                  w.db.messages[messageId].attempts, Pending))
  {
    hide Squeeze, Words, Joined, LogEvent, Reachable, Inv, TablesOk, LogInv, EvidenceInv;
    ReachableParts(h, max, w);
    SqueezeJoins(reason);
    if messageId in w.db.messages { Behind(max, w.db, messageId); }
  }
}
