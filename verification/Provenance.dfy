/** Who did what: the rows of a command show that command in every later state, and each
    settlement was made by someone who neither reserved nor dispatched. */
module Provenance {
  import opened Decimals
  import opened AuditChain
  import opened Domain
  import opened Invariants
  import opened Replay
  import opened Evidence
  import opened Machine
  import opened MachineInvariants
  import opened MachineSafety
  import opened Guarantees
  import opened Runs
  import opened Origins

  // ------------------------------------------------------------ from a command

  /** The rows that a command made show its actor and its request. */
  predicate AsCommanded(h: Hashes, db: Db, c: Command) {
    match c
    case RegisterCommand(cmd, actor, id, _) =>
      && id in db.assets
      && var a := db.assets[id];
         && a.externalId == cmd.externalId && a.ownerId == actor.actorId && a.assetType == cmd.assetType
         && Quantity(a.capacity, cmd.capacity) && a.locationCode == cmd.locationCode && a.status == Active
    case OfferCommand(cmd, actor, id, _) =>
      && id in db.offers
      && var o := db.offers[id];
         && o.assetId == cmd.assetId && o.windowStart == cmd.windowStart.instant && o.windowEnd == cmd.windowEnd.instant
         && o.direction == cmd.direction && Quantity(o.quantity, cmd.quantity) && Column(o.price, cmd.price)
         && o.createdBy == actor.actorId
    case ReserveCommand(offerId, cmd, actor, key, id) =>
      && id in db.reservations
      && var r := db.reservations[id];
         && r.offerId == offerId && Quantity(r.quantity, cmd.quantity) && r.requestedBy == actor.actorId
         && (ReserveOffer, key) in db.idempotency && db.idempotency[(ReserveOffer, key)].resourceId == id
    case IssueCommand(reservationId, cmd, actor, key, id, messageId) =>
      && id in db.dispatches && messageId in db.messages
      && var d, m := db.dispatches[id], db.messages[messageId];
         && d.reservationId == reservationId && Quantity(d.target, cmd.target) && d.issuedBy == actor.actorId
         && d.startsAt == cmd.startsAt.instant && d.endsAt == cmd.endsAt.instant
         && m.aggregateId == id && m.key == key
         && (IssueDispatch, key) in db.idempotency && db.idempotency[(IssueDispatch, key)].resourceId == id
    case ReadingCommand(cmd, actor, id) =>
      && id in db.readings
      && var r := db.readings[id];
         && r.assetId == cmd.assetId && r.intervalStart == cmd.intervalStart.instant
         && r.intervalEnd == cmd.intervalEnd.instant && Column(r.energy, cmd.energy) && r.source == cmd.source
         && r.fingerprint == h.reading(cmd) && r.recordedBy == actor.actorId
    case SettleCommand(reservationId, actor, key, id) =>
      && id in db.settlements && db.settlements[id].reservationId == reservationId
      && db.settlements[id].settledBy == actor.actorId
      && (SettleReservation, key) in db.idempotency && db.idempotency[(SettleReservation, key)].resourceId == id
    case RedriveCommand(_, messageId, dispatchId, _) =>
      dispatchId in db.dispatches && messageId in db.messages && db.messages[messageId].aggregateId == dispatchId
  }

  lemma ToldAsCommanded(h: Hashes, before: Db, db: Db, c: Command, e: AuditEvent<Fact>)
    requires Told(h, db, e) && Commanded(h, before, c, e.hashed)
    ensures AsCommanded(h, db, c)
  {
    hide Column;
  }

  /** A command that changes anything leaves rows that show its actor and its request, and
      an event with that actor, to the end of any run. */
  lemma RowsAsCommanded(h: Hashes, max: nat, w: World, c: Command, stamp: Stamp, run: seq<Event>)
    requires max >= 1 && Reachable(h, max, w) && Enabled(max, w, Api(c), stamp)
    requires Perform(h, w.db, c, stamp) != w.db && Legal(h, max, Next(h, max, w, Api(c), stamp), run)
    ensures var db := EndOf(h, max, Next(h, max, w, Api(c), stamp), run).db;
            && AsCommanded(h, db, c)
            && |w.db.log| < |db.log| && Commanded(h, w.db, c, db.log[|w.db.log|].hashed)
            && db.log[|w.db.log|].hashed.occurredAt == stamp.at
  {
    hide Reachable, WorldInv, DbInv, TablesOk, Inv, LogInv, EvidenceInv, Perform, Legal, EndOf, Told, Commanded,
      AsCommanded, HasRow, Makes, FreshEvent;
    ReachableParts(h, max, w);
    ReachableInv(h, max, w);
    var next := Next(h, max, w, Api(c), stamp);
    CommandWrites(h, max, w.db, c, stamp);
    NextKeeps(h, max, w, Api(c), stamp);
    RunExtends(h, max, next, run);
    var e := next.db.log[|w.db.log|];
    var db := EndOf(h, max, next, run).db;
    ToldStays(h, next.db, db, e);
    ToldAsCommanded(h, w.db, db, c, e);
    assert db.log[|w.db.log|] == e;
    hide Extends;
  }

  // --------------------------------------------------------------- four eyes

  /** Whoever calculated a settlement is neither who reserved nor who dispatched, as the log
      alone shows. */
  lemma FourEyes(h: Hashes, max: nat, w: World, i: nat, j: nat, k: nat)
    requires max >= 1 && Reachable(h, max, w) && i < |w.db.log| && j < |w.db.log| && k < |w.db.log|
    requires w.db.log[i].hashed.payload.OfferTaken? && w.db.log[j].hashed.payload.DispatchQueued?
    requires w.db.log[k].hashed.payload.SettlementCalculated?
    requires w.db.log[i].hashed.payload.reservationId == w.db.log[k].hashed.payload.reservationId
    requires w.db.log[j].hashed.payload.reservationId == w.db.log[k].hashed.payload.reservationId
    ensures w.db.log[k].hashed.actorId != w.db.log[i].hashed.actorId
    ensures w.db.log[k].hashed.actorId != w.db.log[j].hashed.actorId
  {
    hide Reachable, Made, OnceEach, InOrder, HasRow, Makes;
    LogTellsRows(h, max, w);
    assert Told(h, w.db, w.db.log[i]) && Told(h, w.db, w.db.log[j]) && Told(h, w.db, w.db.log[k]);
    hide Quantity, FromColumn;
    CompletedMeansSettledOnce(h, max, w, w.db.log[k].hashed.payload.reservationId);
  }

  /** Each settlement has its three events: reserved by who the reservation names, queued by
      who the dispatch names, calculated by who the settlement names. */
  lemma SettlementHasThreeEvents(h: Hashes, max: nat, w: World, s: string) returns (i: nat, j: nat, k: nat)
    requires max >= 1 && Reachable(h, max, w) && s in w.db.settlements
    ensures i < |w.db.log| && j < |w.db.log| && k < |w.db.log|
    ensures var r := w.db.settlements[s].reservationId;
            && r in w.db.reservations
            && w.db.log[i].hashed.eventType == "offer.reserved" && w.db.log[i].hashed.aggregateId == r
            && w.db.log[i].hashed.actorId == w.db.reservations[r].requestedBy
            && w.db.log[j].hashed.eventType == "dispatch.queued" && w.db.log[j].hashed.aggregateId in w.db.dispatches
            && w.db.dispatches[w.db.log[j].hashed.aggregateId].reservationId == r
            && w.db.log[j].hashed.actorId == w.db.dispatches[w.db.log[j].hashed.aggregateId].issuedBy
            && w.db.log[k].hashed.eventType == "settlement.calculated" && w.db.log[k].hashed.aggregateId == s
            && w.db.log[k].hashed.actorId == w.db.settlements[s].settledBy
            && w.db.log[k].hashed.actorId !in {w.db.log[i].hashed.actorId, w.db.log[j].hashed.actorId}
  {
    hide Reachable, OnceEach, InOrder, Evidenced, Made, HasRow, Makes;
    LogTellsRows(h, max, w);
    EvidenceRecomputes(h, max, w, s);
    EvidencedRows(h, w.db, s, w.db.settlements[s]);
    var r, d := w.db.settlements[s].reservationId, w.db.settlements[s].manifest.dispatchId;
    i := ReservationMaker(w.db, r);
    j := DispatchMaker(w.db, d);
    k := SettlementMaker(w.db, s);
    assert Told(h, w.db, w.db.log[i]) && Told(h, w.db, w.db.log[j]) && Told(h, w.db, w.db.log[k]);
    hide Quantity, FromColumn;
    CompletedMeansSettledOnce(h, max, w, r);
  }

  lemma EvidencedRows(h: Hashes, db: Db, id: string, s: Settlement)
    requires Evidenced(h, db, id, s)
    ensures s.reservationId in db.reservations && s.manifest.dispatchId in db.dispatches
    ensures db.dispatches[s.manifest.dispatchId].reservationId == s.reservationId
  {
    hide EvidencedAt;
  }

  lemma ReservationMaker(db: Db, id: string) returns (i: nat)
    requires id in db.reservations && forall r :: HasRow(db, r) ==> Made(db.log, r)
    ensures i < |db.log| && db.log[i].hashed.payload.OfferTaken? && db.log[i].hashed.payload.reservationId == id
  {
    assert HasRow(db, ReservationRow(id));
    i :| 0 <= i < |db.log| && ReservationRow(id) in Makes(db.log[i]);
  }

  lemma DispatchMaker(db: Db, id: string) returns (i: nat)
    requires id in db.dispatches && forall r :: HasRow(db, r) ==> Made(db.log, r)
    ensures i < |db.log| && db.log[i].hashed.payload.DispatchQueued? && db.log[i].hashed.payload.dispatchId == id
  {
    assert HasRow(db, DispatchRow(id));
    i :| 0 <= i < |db.log| && DispatchRow(id) in Makes(db.log[i]);
  }

  lemma SettlementMaker(db: Db, id: string) returns (i: nat)
    requires id in db.settlements && forall r :: HasRow(db, r) ==> Made(db.log, r)
    ensures i < |db.log| && db.log[i].hashed.payload.SettlementCalculated?
    ensures db.log[i].hashed.payload.settlementId == id
  {
    assert HasRow(db, SettlementRow(id));
    i :| 0 <= i < |db.log| && SettlementRow(id) in Makes(db.log[i]);
  }
}
