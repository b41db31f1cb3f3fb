/** The outbox transactions keep the database invariant and only extend history. Each
    of them rewrites one message, its dispatch and its reservation. */
module Preservation {
  import opened Text
  import opened Ordering
  import opened Signals
  import opened AuditChain
  import opened Domain
  import opened Outbox
  import opened Invariants

  // -------------------------------------------- updates of single tables

  /** Same stage as before: still reserved or not, still completed or not. */
  predicate SameStage(a: Reservation, b: Reservation) {
    && (a.status == Reserved <==> b.status == Reserved)
    && (a.status == ReservationCompleted <==> b.status == ReservationCompleted)
  }

  lemma ReservationUpdate(reservations: Reservations, id: string, r: Reservation, offers: Offers,
                          dispatches: Dispatches, settlements: Settlements)
    requires id in reservations && SameReservation(reservations[id], r)
    ensures ReservationsOk(reservations, offers) ==> ReservationsOk(reservations[id := r], offers)
    ensures DispatchesOk(dispatches, reservations, offers) ==> DispatchesOk(dispatches, reservations[id := r], offers)
    ensures SettlementsOk(settlements, reservations, dispatches) ==>
              SettlementsOk(settlements, reservations[id := r], dispatches)
    ensures SameStage(reservations[id], r) && ReservationStages(reservations, dispatches, settlements)
            ==> ReservationStages(reservations[id := r], dispatches, settlements)
  {
    ReservationUpdateStages(reservations, id, r, dispatches, settlements);
    hide DispatchInWindow, ReservationStages;
  }

  lemma ReservationUpdateStages(reservations: Reservations, id: string, r: Reservation, dispatches: Dispatches,
                                settlements: Settlements)
    requires id in reservations
    ensures SameStage(reservations[id], r) && ReservationStages(reservations, dispatches, settlements)
            ==> ReservationStages(reservations[id := r], dispatches, settlements)
  {
    hide HasDispatch, HasSettlement;
  }

  lemma ReservationUpdateElsewhere(reservations: Reservations, id: string, r: Reservation, offers: Offers,
                                   records: Records, dispatches: Dispatches, settlements: Settlements)
    requires id in reservations && SameReservation(reservations[id], r)
    ensures OfferStages(offers, reservations) ==> OfferStages(offers, reservations[id := r])
    ensures RecordsOk(records, reservations, dispatches, settlements) ==>
              RecordsOk(records, reservations[id := r], dispatches, settlements)
  {
    var after := reservations[id := r];
    forall x ensures HasReservation(reservations, x) <==> HasReservation(after, x) {
      if k :| k in reservations && reservations[k].offerId == x { assert k in after; }
      if k :| k in after && after[k].offerId == x { assert k in reservations; }
    }
    hide HasReservation, Blank;
  }

  lemma DispatchUpdate(dispatches: Dispatches, id: string, d: Dispatch, reservations: Reservations, offers: Offers,
                       settlements: Settlements, messages: Messages)
    requires id in dispatches && SameDispatch(dispatches[id], d)
    ensures DispatchesOk(dispatches, reservations, offers) ==> DispatchesOk(dispatches[id := d], reservations, offers)
    ensures SettlementsOk(settlements, reservations, dispatches) ==>
              SettlementsOk(settlements, reservations, dispatches[id := d])
    ensures DispatchStages(dispatches, messages) ==> DispatchStages(dispatches[id := d], messages)
  {
    hide HasMessage;
  }

  lemma DispatchUpdateElsewhere(dispatches: Dispatches, id: string, d: Dispatch, reservations: Reservations,
                                settlements: Settlements, records: Records)
    requires id in dispatches && SameDispatch(dispatches[id], d)
    ensures ReservationStages(reservations, dispatches, settlements) ==>
              ReservationStages(reservations, dispatches[id := d], settlements)
    ensures RecordsOk(records, reservations, dispatches, settlements) ==>
              RecordsOk(records, reservations, dispatches[id := d], settlements)
  {
    var after := dispatches[id := d];
    forall x ensures HasDispatch(dispatches, x) <==> HasDispatch(after, x) {
      if k :| k in dispatches && dispatches[k].reservationId == x { assert k in after; }
      if k :| k in after && after[k].reservationId == x { assert k in dispatches; }
    }
    hide HasDispatch, HasSettlement, Blank;
  }

  lemma MessageUpdate(max: nat, messages: Messages, id: string, m: Message, dispatches: Dispatches, records: Records)
    requires id in messages && SameMessage(messages[id], m)
    requires LeaseColumns(m) && WithinBudget(max, m)
    ensures MessagesOk(max, messages) ==> MessagesOk(max, messages[id := m])
    ensures KeysRecorded(records, messages) ==> KeysRecorded(records, messages[id := m])
    ensures DispatchStages(dispatches, messages) ==> DispatchStages(dispatches, messages[id := m])
  {
    var after := messages[id := m];
    forall x ensures HasMessage(messages, x) ==> HasMessage(after, x) {
      if k :| k in messages && messages[k].aggregateId == x { assert k in after; }
    }
    hide HasMessage, LeaseColumns, WithinBudget;
  }

  /** Payloads stay those of their rows when the rows behind them keep their write-once
      columns. */
  lemma PayloadsUpdate(messages: Messages, dispatches: Dispatches, reservations: Reservations, offers: Offers,
                       assets: Assets, messages': Messages, dispatches': Dispatches, reservations': Reservations,
                           offers': Offers, assets': Assets)
    requires Payloads(messages, dispatches, reservations, offers, assets)
    requires forall x :: x in messages' ==> x in messages && SameMessage(messages[x], messages'[x])
    requires forall x :: x in dispatches ==> x in dispatches' && SameDispatch(dispatches[x], dispatches'[x])
    requires forall x :: x in reservations ==> x in reservations' && SameReservation(reservations[x], reservations'[x])
    requires forall x :: x in offers ==> x in offers' && SameOffer(offers[x], offers'[x])
    requires forall x :: x in assets ==> x in assets' && assets[x] == assets'[x]
    ensures Payloads(messages', dispatches', reservations', offers', assets')
  {
    hide Decode;
    forall x | x in messages' ensures Carries(messages'[x], dispatches', reservations', offers', assets') {
      assert Carries(messages[x], dispatches, reservations, offers, assets);
      assert SameMessage(messages[x], messages'[x]);
    }
  }

  // ------------------------------------------------ moving one message forward

  /** One message with its dispatch and reservation, and the log, are rewritten. */
  function Moved(db: Db, id: string, m: Message, d: Dispatch, r: Reservation, log: seq<AuditEvent<Fact>>): Db {
    db.(messages := db.messages[id := m],
        dispatches := db.dispatches[m.aggregateId := d],
        reservations := db.reservations[d.reservationId := r],
        log := log)
  }

  /** The write keeps all write-once columns. */
  predicate Rewrites(db: Db, id: string, m: Message, d: Dispatch, r: Reservation, log: seq<AuditEvent<Fact>>) {
    && id in db.messages && SameMessage(db.messages[id], m)
    && m.aggregateId in db.dispatches && SameDispatch(db.dispatches[m.aggregateId], d)
    && d.reservationId in db.reservations && SameReservation(db.reservations[d.reservationId], r)
    && db.log <= log
  }

  lemma MovedExtends(db: Db, id: string, m: Message, d: Dispatch, r: Reservation, log: seq<AuditEvent<Fact>>)
    requires Rewrites(db, id, m, d, r, log)
    ensures Extends(db, Moved(db, id, m, d, r, log))
  {
  }

  lemma MovedJoint(max: nat, db: Db, id: string, m: Message, d: Dispatch, r: Reservation, log: seq<AuditEvent<Fact>>)
    requires MessagesOk(max, db.messages) && DispatchesOk(db.dispatches, db.reservations, db.offers)
    requires JointStatus(db.messages, db.dispatches, db.reservations)
    requires Rewrites(db, id, m, d, r, log) && Agree(m.status, d.status, r.status)
    ensures var after := Moved(db, id, m, d, r, log); JointStatus(after.messages, after.dispatches, after.reservations)
  {
    hide DispatchInWindow, LeaseColumns, WithinBudget, Agree;
    var after := Moved(db, id, m, d, r, log);
    forall x | x in after.messages && x != id
      ensures after.messages[x] == db.messages[x]
      ensures var y := db.messages[x].aggregateId;
              y in db.dispatches && after.dispatches[y] == db.dispatches[y]
              && db.dispatches[y].reservationId != d.reservationId
    {
      OthersApart(max, db, id, x);
    }
    hide MessagesOk, DispatchesOk;
  }

  /** Different messages stand for different dispatches of different reservations. */
  lemma OthersApart(max: nat, db: Db, id: string, x: string)
    requires MessagesOk(max, db.messages) && DispatchesOk(db.dispatches, db.reservations, db.offers)
    requires JointStatus(db.messages, db.dispatches, db.reservations) && id in db.messages && x in db.messages
    requires x != id
    ensures var y, z := db.messages[x].aggregateId, db.messages[id].aggregateId;
            y in db.dispatches && z in db.dispatches && y != z
                && db.dispatches[y].reservationId != db.dispatches[z].reservationId
  {
    hide DispatchInWindow, LeaseColumns, WithinBudget, Agree;
  }

  lemma MovedKeeps(max: nat, db: Db, id: string, m: Message, d: Dispatch, r: Reservation, log: seq<AuditEvent<Fact>>)
    requires Inv(max, db) && Rewrites(db, id, m, d, r, log)
    requires LeaseColumns(m) && WithinBudget(max, m) && Agree(m.status, d.status, r.status)
    requires SameStage(db.reservations[d.reservationId], r)
    ensures Inv(max, Moved(db, id, m, d, r, log)) && Extends(db, Moved(db, id, m, d, r, log))
  {
    hide OffersOk, ReservationsOk, DispatchesOk, SettlementsOk, MessagesOk, JointStatus, OfferStages, ReservationStages,
      DispatchStages, Payloads, KeysRecorded, RecordsOk, Extends, LeaseColumns, WithinBudget, Agree, SameStage;
    var after := Moved(db, id, m, d, r, log);
    MovedExtends(db, id, m, d, r, log);
    MovedJoint(max, db, id, m, d, r, log);
    MessageUpdate(max, db.messages, id, m, db.dispatches, db.idempotency);
    DispatchUpdate(db.dispatches, m.aggregateId, d, db.reservations, db.offers, db.settlements, after.messages);
    DispatchUpdateElsewhere(db.dispatches, m.aggregateId, d, db.reservations, db.settlements, db.idempotency);
    ReservationUpdate(db.reservations, d.reservationId, r, db.offers, after.dispatches, db.settlements);
    ReservationUpdateElsewhere(db.reservations, d.reservationId, r, db.offers, db.idempotency, after.dispatches,
                               db.settlements);
    PayloadsUpdate(db.messages, db.dispatches, db.reservations, db.offers, db.assets,
                   after.messages, after.dispatches, after.reservations, after.offers, after.assets);
  }

  // ------------------------------------------------------------------ outbox

  /** A claim record agrees with the message it was made from. */
  predicate Faithful(db: Db, c: ClaimedMessage) {
    && c.id in db.messages
    && c.aggregateId == db.messages[c.id].aggregateId
    && c.key == db.messages[c.id].key
    && c.payload == db.messages[c.id].payload
  }

  /** The rows behind a message, and the statuses they must have. */
  lemma Behind(max: nat, db: Db, id: string)
    requires Inv(max, db) && id in db.messages
    ensures db.messages[id].aggregateId in db.dispatches
    ensures db.dispatches[db.messages[id].aggregateId].reservationId in db.reservations
    ensures var d := db.dispatches[db.messages[id].aggregateId];
            Agree(db.messages[id].status, d.status, db.reservations[d.reservationId].status)
    ensures LeaseColumns(db.messages[id]) && WithinBudget(max, db.messages[id])
    ensures db.messages[id].topic == DISPATCH_TOPIC
  {
    hide OffersOk, ReservationsOk, DispatchesOk, SettlementsOk, OfferStages, ReservationStages, DispatchStages,
      Payloads, KeysRecorded, RecordsOk, LeaseColumns, Agree;
  }

  lemma ExtendsReflexive(db: Db)
    ensures Extends(db, db)
  {
  }

  lemma ClaimKeeps(max: nat, db: Db, cfg: WorkerConfig, token: string, now: int)
    requires Inv(max, db)
    ensures var r := Claim(db, cfg, token, now);
            && Inv(max, r.db) && Extends(db, r.db)
            && (r.claimed.Some? ==> Faithful(r.db, r.claimed.value))
  {
    hide Inv, Extends;
    var r := Claim(db, cfg, token, now);
    if Claimable(db, now) != {} {
      var id := First(Claimable(db, now)).id;
      Behind(max, db, id);
      var m := Leased(db.messages[id], cfg.lease, token, now);
      var d := db.dispatches[m.aggregateId];
      MovedKeeps(max, db, id, m, d, db.reservations[d.reservationId], db.log);
      assert r.db == Moved(db, id, m, d, db.reservations[d.reservationId], db.log);
    } else {
      ExtendsReflexive(db);
    }
  }

  lemma SuccessKeeps(h: Hashes, max: nat, db: Db, cfg: WorkerConfig, c: ClaimedMessage, reference: string, stamp: Stamp)
    requires Inv(max, db) && Faithful(db, c)
    ensures var r := RecordSuccess(h, db, cfg, c, reference, stamp);
            r.Done? && Inv(max, r.db) && Extends(db, r.db)
  {
    hide Inv, Extends;
    var r := RecordSuccess(h, db, cfg, c, reference, stamp);
    Behind(max, db, c.id);
    if HoldsLease(db, c) {
      var d := r.db.dispatches[c.aggregateId];
      MovedKeeps(max, db, c.id, r.db.messages[c.id], d, r.db.reservations[d.reservationId], r.db.log);
    } else {
      ExtendsReflexive(db);
    }
  }

  lemma RetryIsMove(h: Hashes, db: Db, cfg: WorkerConfig, c: ClaimedMessage, error: string, stamp: Stamp)
    requires Faithful(db, c) && HoldsLease(db, c) && db.messages[c.id].attempts < cfg.maxAttempts
    requires c.aggregateId in db.dispatches && db.dispatches[c.aggregateId].reservationId in db.reservations
    ensures var d := db.dispatches[c.aggregateId];
            RecordFailure(h, db, cfg, c, error, stamp)
            == Done(Moved(db, c.id, AfterFailure(db.messages[c.id], cfg, error, stamp.at), d,
                          db.reservations[d.reservationId], db.log), false)
  {
    hide ErrorText, RetryDelay;
    var d := db.dispatches[c.aggregateId];
    assert db.dispatches[c.aggregateId := d] == db.dispatches;
    assert db.reservations[d.reservationId := db.reservations[d.reservationId]] == db.reservations;
  }

  lemma FailureKeeps(h: Hashes, max: nat, db: Db, cfg: WorkerConfig, c: ClaimedMessage, error: string, stamp: Stamp)
    requires Inv(max, db) && Faithful(db, c) && cfg.maxAttempts == max
    ensures var r := RecordFailure(h, db, cfg, c, error, stamp);
            Inv(max, r.db) && Extends(db, r.db)
  {
    hide Inv, Extends, ErrorText, RetryDelay;
    Behind(max, db, c.id);
    if HoldsLease(db, c) {
      var m := AfterFailure(db.messages[c.id], cfg, error, stamp.at);
      var d := db.dispatches[c.aggregateId];
      var r := db.reservations[d.reservationId];
      if db.messages[c.id].attempts < max {
        RetryIsMove(h, db, cfg, c, error, stamp);
        hide RecordFailure, LogEvent;
        MovedKeeps(max, db, c.id, m, d, r, db.log);
      } else {
        var log := LogEvent(h, db.log, DeliveryFailed(c.aggregateId, c.id, db.messages[c.id].attempts,
                                                      ErrorText(error)), SystemActor(cfg), c.key, stamp);
        MovedKeeps(max, db, c.id, m, d.(status := Rejected), r.(status := Cancelled), log);
      }
    } else {
      ExtendsReflexive(db);
    }
  }

  lemma RedriveKeeps(h: Hashes, max: nat, db: Db, actor: Actor, messageId: string, dispatchId: string, reason: string,
                     stamp: Stamp)
    requires Inv(max, db) && max >= 1
    ensures var r := Redrive(h, db, actor, messageId, dispatchId, reason, stamp);
            r.Done? ==> Inv(max, r.db) && Extends(db, r.db)
  {
    hide Inv, Extends, Squeeze;
    var r := Redrive(h, db, actor, messageId, dispatchId, reason, stamp);
    if r.Done? {
      Behind(max, db, messageId);
      var d := r.db.dispatches[dispatchId];
      MovedKeeps(max, db, messageId, r.db.messages[messageId], d, r.db.reservations[d.reservationId], r.db.log);
    }
  }
}
