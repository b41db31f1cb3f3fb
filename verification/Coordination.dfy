/** The transactions of `CoordinationService`, each as a function from the database to
    its outcome. The class of the same name runs them in place. */
module Coordination {
  import opened Wrappers
  import opened Text
  import opened Decimals
  import opened Ordering
  import opened Signals
  import opened AuditChain
  import opened Domain
  import opened Outbox

  function RegisterAsset(h: Hashes, db: Db, cmd: AssetCreate, actor: Actor, assetId: string, correlationId: string,
                         stamp: Stamp)
    : Outcome<string>
    requires cmd.Accepted()
  {
    if actor.role != AssetOwner then Failed(RoleForbidden)
    else if cmd.ownerId != actor.actorId then Failed(NotAssetOwner)
    else if exists a :: a in db.assets && db.assets[a].externalId == cmd.externalId then Failed(DuplicateExternalId)
    else
      var asset := Asset(cmd.externalId, cmd.ownerId, cmd.assetType, Micro(cmd.capacity), cmd.locationCode, Active);
      var fact := AssetRegistered(assetId, cmd.externalId, cmd.assetType, cmd.capacity, cmd.locationCode);
      Done(db.(assets := db.assets[assetId := asset],
               log := LogEvent(h, db.log, fact, actor.actorId, correlationId, stamp)),
           assetId)
  }

  function CreateOffer(h: Hashes, db: Db, cmd: OfferCreate, actor: Actor, offerId: string, correlationId: string,
                       stamp: Stamp)
    : Outcome<string>
    requires cmd.Accepted()
  {
    if actor.role != AssetOwner then Failed(RoleForbidden)
    else if cmd.assetId !in db.assets then Failed(AssetNotFound)
    else
      var asset := db.assets[cmd.assetId];
      if asset.ownerId != actor.actorId then Failed(NotAssetOwner)
      else if asset.status != Active then Failed(AssetSuspended)
      else if Micro(cmd.quantity) > asset.capacity then Failed(OfferExceedsCapacity)
      else
        var offer := Offer(cmd.assetId, cmd.windowStart.instant, cmd.windowEnd.instant, cmd.direction,
                           Micro(cmd.quantity), Micro(cmd.price), Open, actor.actorId);
        var fact := OfferCreated(offerId, cmd.assetId, cmd.direction, cmd.quantity, cmd.price, cmd.windowStart,
                                 cmd.windowEnd);
        Done(db.(offers := db.offers[offerId := offer],
                 log := LogEvent(h, db.log, fact, actor.actorId, correlationId, stamp)),
             offerId)
  }

  // ------------------------------------------------------------- idempotency

  datatype Prior = Unseen | Replay(resourceId: string) | Refused(error: Error)

  predicate ResourceExists(db: Db, op: Operation, id: string) {
    match op
    case ReserveOffer => id in db.reservations
    case IssueDispatch => id in db.dispatches
    case SettleReservation => id in db.settlements
  }

  /** `_idempotent_resource` */
  function IdempotentResource(db: Db, op: Operation, key: string, requestHash: string): Prior {
    if Blank(key) then Refused(BlankIdempotencyKey)
    else if (op, key) !in db.idempotency then Unseen
    else
      var record := db.idempotency[(op, key)];
      if record.requestHash != requestHash then Refused(KeyReusedForOtherRequest)
      else if !ResourceExists(db, op, record.resourceId) then Refused(MissingResource)
      else Replay(record.resourceId)
  }

  // ---------------------------------------------------------------- commands

  function Reserve(h: Hashes, db: Db, offerId: string, cmd: ReservationCreate, actor: Actor, key: string,
                   reservationId: string, stamp: Stamp): Outcome<string>
    requires cmd.Accepted()
  {
    if actor.role != MarketOperator then Failed(RoleForbidden)
    else
      var requestHash := h.request(ReserveRequest(offerId, cmd.quantity, actor.actorId));
      match IdempotentResource(db, ReserveOffer, key, requestHash)
      case Refused(e) => Failed(e)
      case Replay(id) => Done(db, id)
      case Unseen => ReserveNew(h, db, offerId, cmd, actor, key, requestHash, reservationId, stamp)
  }

  /** `reserve_offer` for a key not seen before. */
  function ReserveNew(h: Hashes, db: Db, offerId: string, cmd: ReservationCreate, actor: Actor, key: string,
                      requestHash: string, reservationId: string, stamp: Stamp): Outcome<string>
    requires cmd.Accepted()
  {
    if offerId !in db.offers then Failed(OfferNotFound)
    else
      var offer := db.offers[offerId];
      if offer.status != Open then Failed(OfferNotOpen)
      else if Micro(cmd.quantity) > offer.quantity then Failed(ReservationExceedsOffer)
      else if exists r :: r in db.reservations && db.reservations[r].offerId == offerId then Failed(IntegrityError)
      else
        var reservation := Reservation(offerId, Micro(cmd.quantity), Reserved, actor.actorId);
        var fact := OfferTaken(reservationId, offerId, cmd.quantity);
        Done(db.(reservations := db.reservations[reservationId := reservation],
                 offers := db.offers[offerId := offer.(status := OfferReserved)],
                 log := LogEvent(h, db.log, fact, actor.actorId, key, stamp),
                 idempotency := db.idempotency[(ReserveOffer, key) := IdempotencyRecord(requestHash, reservationId)]),
             reservationId)
  }

  function Issue(h: Hashes, db: Db, reservationId: string, cmd: DispatchCreate, actor: Actor, key: string,
                 dispatchId: string, messageId: string, stamp: Stamp): Outcome<string>
    requires cmd.Accepted()
  {
    if actor.role != MarketOperator then Failed(RoleForbidden)
    else
      var requestHash := h.request(DispatchRequest(reservationId, cmd.target, cmd.startsAt, cmd.endsAt, actor.actorId));
      match IdempotentResource(db, IssueDispatch, key, requestHash)
      case Refused(e) => Failed(e)
      case Replay(id) => Done(db, id)
      case Unseen => IssueNew(h, db, reservationId, cmd, actor, key, requestHash, dispatchId, messageId, stamp)
  }

  /** `issue_dispatch` for a key not seen before. */
  function IssueNew(h: Hashes, db: Db, reservationId: string, cmd: DispatchCreate, actor: Actor, key: string,
                    requestHash: string, dispatchId: string, messageId: string, stamp: Stamp): Outcome<string>
    requires cmd.Accepted()
  {
    if reservationId !in db.reservations then Failed(ReservationNotFound)
    else
      var reservation := db.reservations[reservationId];
      if reservation.status != Reserved then Failed(ReservationNotReserved)
      else if Micro(cmd.target) > reservation.quantity then Failed(DispatchExceedsReservation)
      else if reservation.offerId !in db.offers then Failed(OfferNotFound)
      else
        var offer := db.offers[reservation.offerId];
        if offer.assetId !in db.assets then Failed(AssetNotFound)
        else if cmd.startsAt.instant < offer.windowStart || cmd.endsAt.instant > offer.windowEnd then
          Failed(DispatchOutsideOffer)
        else if exists d :: d in db.dispatches && db.dispatches[d].reservationId == reservationId then
          Failed(IntegrityError)
        else
          var signal := DispatchSignal(dispatchId, db.assets[offer.assetId].externalId, cmd.target, cmd.startsAt,
                                       cmd.endsAt);
          match Enqueue(db, signal, key, messageId, stamp.at)
          case Failed(e) => Failed(e)
          case Done(queued, _) =>
            var dispatch := Dispatch(reservationId, Micro(cmd.target), cmd.startsAt.instant, cmd.endsAt.instant, Queued,
                                     actor.actorId, "outbox:" + messageId);
            var fact := DispatchQueued(dispatchId, reservationId, cmd.target, cmd.startsAt, cmd.endsAt, messageId);
            Done(queued.(dispatches := db.dispatches[dispatchId := dispatch],
                         reservations := db.reservations[reservationId := reservation.(status := DispatchPending)],
                         log := LogEvent(h, db.log, fact, actor.actorId, key, stamp),
                         idempotency := db.idempotency[(IssueDispatch, key) := IdempotencyRecord(requestHash,
                               dispatchId)]),
                 dispatchId)
  }

  function RecordReading(h: Hashes, db: Db, cmd: MeterReadingCreate, actor: Actor, readingId: string, stamp: Stamp)
    : Outcome<string>
    requires cmd.Accepted()
  {
    if actor.role != AssetOwner && actor.role != System then Failed(RoleForbidden)
    else
      var fingerprint := h.reading(cmd);
      if cmd.assetId !in db.assets then Failed(AssetNotFound)
      else if actor.role == AssetOwner && db.assets[cmd.assetId].ownerId != actor.actorId then Failed(NotAssetOwner)
      else
        match ReadingWith(db, fingerprint)
        case Some(existing) => Done(db, existing)
        case None =>
          var reading := Reading(cmd.assetId, cmd.intervalStart.instant, cmd.intervalEnd.instant, Micro(cmd.energy),
                                 cmd.source, fingerprint, actor.actorId);
          var fact := ReadingRecorded(readingId, cmd.assetId, cmd.intervalStart, cmd.intervalEnd, cmd.energy,
                                      cmd.source, fingerprint);
          Done(db.(readings := db.readings[readingId := reading],
                   log := LogEvent(h, db.log, fact, actor.actorId, fingerprint, stamp)),
               readingId)
  }

  /** The row with a given fingerprint; the first in id order, should the unique
      constraint ever fail to make it the only one. */
  function ReadingWith(db: Db, fingerprint: string): (r: Option<string>)
    ensures r.Some? ==> r.value in db.readings && db.readings[r.value].fingerprint == fingerprint
    ensures r.None? ==> forall x :: x in db.readings ==> db.readings[x].fingerprint != fingerprint
  {
    var found := set x | x in db.readings && db.readings[x].fingerprint == fingerprint :: Rank(0, 0, x);
    if found == {} then
      assert forall x :: x in db.readings && db.readings[x].fingerprint == fingerprint ==> Rank(0, 0, x) in found;
      None
    else Some(First(found).id)
  }

  // -------------------------------------------------------------- settlement

  /** The dispatch of a reservation; unique by constraint. */
  function DispatchOf(db: Db, reservationId: string): (r: Option<string>)
    ensures r.Some? ==> r.value in db.dispatches && db.dispatches[r.value].reservationId == reservationId
    ensures r.None? ==> forall x :: x in db.dispatches ==> db.dispatches[x].reservationId != reservationId
  {
    var found := set x | x in db.dispatches && db.dispatches[x].reservationId == reservationId :: Rank(0, 0, x);
    if found == {} then
      assert forall x :: x in db.dispatches && db.dispatches[x].reservationId == reservationId ==>
          Rank(0, 0, x) in found;
      None
    else Some(First(found).id)
  }

  /** Readings of an asset that lie inside a window. */
  predicate InWindow(r: Reading, assetId: string, startsAt: int, endsAt: int) {
    r.assetId == assetId && startsAt <= r.intervalStart && r.intervalEnd <= endsAt
  }

  function WindowRanks(readings: map<string, Reading>, assetId: string, startsAt: int, endsAt: int): set<Rank> {
    set x | x in readings && InWindow(readings[x], assetId, startsAt, endsAt) :: Rank(readings[x].intervalStart, 0, x)
  }

  function Ids(ranks: seq<Rank>): (ids: seq<string>)
    ensures |ids| == |ranks| && forall i :: 0 <= i < |ids| ==> ids[i] == ranks[i].id
  {
    seq(|ranks|, i requires 0 <= i < |ranks| => ranks[i].id)
  }

  /** The in-window readings of an asset in (start, id) order. */
  function WindowReadings(readings: map<string, Reading>, assetId: string, startsAt: int,
                          endsAt: int): (ids: seq<string>)
    ensures forall i :: 0 <= i < |ids| ==> ids[i] in readings && InWindow(readings[ids[i]], assetId, startsAt, endsAt)
  {
    var ranks := WindowRanks(readings, assetId, startsAt, endsAt);
    ListingLaw(ranks);
    var listing := Listing(ranks);
    assert forall i :: 0 <= i < |listing| ==> listing[i] in ranks;
    Ids(listing)
  }

  function Energies(readings: map<string, Reading>, ids: seq<string>): (e: seq<nat>)
    requires forall i :: 0 <= i < |ids| ==> ids[i] in readings
    ensures |e| == |ids| && forall i :: 0 <= i < |e| ==> e[i] == readings[ids[i]].energy
  {
    seq(|ids|, i requires 0 <= i < |ids| => readings[ids[i]].energy)
  }

  function Settle(h: Hashes, db: Db, reservationId: string, actor: Actor, key: string, settlementId: string,
                  stamp: Stamp)
    : Outcome<string>
  {
    if actor.role != SettlementAnalyst then Failed(RoleForbidden)
    else
      var requestHash := h.request(SettleRequest(reservationId, actor.actorId));
      match IdempotentResource(db, SettleReservation, key, requestHash)
      case Refused(e) => Failed(e)
      case Replay(id) => Done(db, id)
      case Unseen => SettleNew(h, db, reservationId, actor, key, requestHash, settlementId, stamp)
  }

  /** `settle_reservation` for a key not seen before. */
  function SettleNew(h: Hashes, db: Db, reservationId: string, actor: Actor, key: string, requestHash: string,
                     settlementId: string, stamp: Stamp): Outcome<string>
  {
    if reservationId !in db.reservations then Failed(ReservationNotFound)
    else
      var reservation := db.reservations[reservationId];
      if reservation.status != Dispatched then Failed(ReservationNotDispatched)
      else
        match DispatchOf(db, reservationId)
        case None => Failed(DispatchNotFound)
        case Some(dispatchId) =>
          var dispatch := db.dispatches[dispatchId];
          if dispatch.status != Issued then Failed(DispatchNotIssued)
          else if actor.actorId == dispatch.issuedBy || actor.actorId == reservation.requestedBy then
              Failed(NotSeparateActor)
          else if reservation.offerId !in db.offers then Failed(OfferNotFound)
          else
            var offer := db.offers[reservation.offerId];
            var readingIds := WindowReadings(db.readings, offer.assetId, dispatch.startsAt, dispatch.endsAt);
            if readingIds == [] then Failed(NoReadings)
            else
              match Decimals.Settle(Energies(db.readings, readingIds), offer.price)
              case None => Failed(ArithmeticOverflow)
              case Some(bill) =>
                if exists s :: s in db.settlements && db.settlements[s].reservationId == reservationId then
                  Failed(IntegrityError)
                else
                  Done(Settled(h, db, reservationId, dispatchId, readingIds, bill, actor, key, requestHash,
                               settlementId, stamp),
                       settlementId)
  }

  /** The writes of a settlement whose checks have passed. */
  function Settled(h: Hashes, db: Db, reservationId: string, dispatchId: string, readingIds: seq<string>, bill: Bill,
                   actor: Actor, key: string, requestHash: string, settlementId: string, stamp: Stamp): Db
    requires reservationId in db.reservations && db.reservations[reservationId].offerId in db.offers
    requires dispatchId in db.dispatches
  {
    var reservation := db.reservations[reservationId];
    var offer := db.offers[reservation.offerId];
    var delivered, price, amount := FromColumn(bill.delivered), FromColumn(offer.price), FromColumn(bill.amount);
    var fact := SettlementCalculated(settlementId, reservationId, dispatchId, readingIds, delivered, price, amount);
    var log := LogEvent(h, db.log, fact, actor.actorId, key, stamp);
    var manifest := Manifest(settlementId, reservationId, reservation.offerId, offer.assetId, dispatchId, readingIds,
                             delivered, price, amount, stamp.eventId, HeadHash(log));
    var settlement := Settlement(reservationId, bill.delivered, offer.price, bill.amount, manifest,
                                 h.manifest(manifest), actor.actorId);
    db.(settlements := db.settlements[settlementId := settlement],
        reservations := db.reservations[reservationId := reservation.(status := ReservationCompleted)],
        dispatches := db.dispatches[dispatchId := db.dispatches[dispatchId].(status := DispatchCompleted)],
        log := log,
        idempotency := db.idempotency[(SettleReservation, key) := IdempotencyRecord(requestHash, settlementId)])
  }
}
