/** Every transaction accounts for its status changes with one permitted audit event,
    or changes no status and writes none. */
module Accounting {
  import opened Text
  import opened Decimals
  import opened Ordering
  import opened Signals
  import opened AuditChain
  import opened Domain
  import opened Outbox
  import opened Coordination
  import opened Invariants
  import opened Preservation
  import opened CommandPreservation
  import opened Replay

  // ------------------------------------------------------------------ outbox

  lemma MovedStatuses(db: Db, id: string, m: Message, d: Dispatch, r: Reservation, log: seq<AuditEvent<Fact>>)
    requires Rewrites(db, id, m, d, r, log)
    ensures Statuses(Moved(db, id, m, d, r, log))
            == Deliver(Statuses(db), m.aggregateId, id, d.status, r.status, DeliveryOf(m.status))
  {
    DispatchBookUpdate(db.dispatches, m.aggregateId, d);
    ReservationBookUpdate(db.reservations, d.reservationId, r);
    MessageBookUpdate(db.messages, id, m);
  }

  lemma DispatchBookUpdate(dispatches: map<string, Dispatch>, id: string, d: Dispatch)
    ensures DispatchBook(dispatches[id := d]) == DispatchBook(dispatches)[id := d.status]
    ensures ReservationOf(dispatches[id := d]) == ReservationOf(dispatches)[id := d.reservationId]
    ensures id in dispatches && dispatches[id].reservationId == d.reservationId ==>
              ReservationOf(dispatches[id := d]) == ReservationOf(dispatches)
  {
  }

  lemma ReservationBookUpdate(reservations: map<string, Reservation>, id: string, r: Reservation)
    ensures ReservationBook(reservations[id := r]) == ReservationBook(reservations)[id := r.status]
  {
  }

  lemma MessageBookUpdate(messages: map<string, Message>, id: string, m: Message)
    ensures MessageBook(messages[id := m]) == MessageBook(messages)[id := DeliveryOf(m.status)]
  {
  }

  /** The books show what `Behind` says of a message. */
  lemma BooksBehind(max: nat, db: Db, id: string)
    requires Inv(max, db) && id in db.messages
    ensures var m := db.messages[id];
            m.aggregateId in db.dispatches && db.dispatches[m.aggregateId].reservationId in db.reservations
            && InState(Statuses(db), m.aggregateId, id, db.dispatches[m.aggregateId].status,
                       db.reservations[db.dispatches[m.aggregateId].reservationId].status, DeliveryOf(m.status))
  {
    Behind(max, db, id);
    hide Inv;
  }

  lemma SameStatuses(db: Db, id: string, m: Message, log: seq<AuditEvent<Fact>>)
    requires id in db.messages && SameMessage(db.messages[id], m) && m.aggregateId in db.dispatches
    requires db.dispatches[m.aggregateId].reservationId in db.reservations && db.log <= log
    requires DeliveryOf(m.status) == DeliveryOf(db.messages[id].status)
    ensures var d := db.dispatches[m.aggregateId];
            Statuses(Moved(db, id, m, d, db.reservations[d.reservationId], log)) == Statuses(db)
  {
    hide Moved;
    var d := db.dispatches[m.aggregateId];
    var r := db.reservations[d.reservationId];
    MovedStatuses(db, id, m, d, r, log);
    var b := Statuses(db);
    var c := Deliver(b, m.aggregateId, id, d.status, r.status, DeliveryOf(m.status));
    assert c.dispatches == b.dispatches && c.reservations == b.reservations && c.messages == b.messages;
    hide OfferBook, ReservationBook, DispatchBook, MessageBook, ReservationOf;
  }

  lemma ClaimSilent(max: nat, db: Db, cfg: WorkerConfig, token: string, now: int)
    requires Inv(max, db)
    ensures Silent(db, Claim(db, cfg, token, now).db)
  {
    hide Inv, Statuses;
    var r := Claim(db, cfg, token, now);
    if Claimable(db, now) != {} {
      var id := First(Claimable(db, now)).id;
      Behind(max, db, id);
      var m := Leased(db.messages[id], cfg.lease, token, now);
      var d := db.dispatches[m.aggregateId];
      SameStatuses(db, id, m, db.log);
      assert r.db == Moved(db, id, m, d, db.reservations[d.reservationId], db.log);
    }
  }

  lemma SuccessAccounted(h: Hashes, max: nat, db: Db, cfg: WorkerConfig, c: ClaimedMessage, reference: string,
                         stamp: Stamp)
    requires Inv(max, db) && Faithful(db, c) && HoldsLease(db, c)
    ensures var r := RecordSuccess(h, db, cfg, c, reference, stamp);
            var f := DispatchPublished(c.aggregateId, c.id, reference, db.messages[c.id].attempts);
            r.Done? && Accounted(h, db, r.db, f)
  {
    hide Inv, Statuses, LogEvent;
    Behind(max, db, c.id);
    BooksBehind(max, db, c.id);
    var r := RecordSuccess(h, db, cfg, c, reference, stamp).db;
    var d := r.dispatches[c.aggregateId];
    LogGrows(h, db.log, DispatchPublished(c.aggregateId, c.id, reference, db.messages[c.id].attempts), SystemActor(cfg),
             c.key, stamp);
    MovedStatuses(db, c.id, r.messages[c.id], d, r.reservations[d.reservationId], r.log);
    assert r == Moved(db, c.id, r.messages[c.id], d, r.reservations[d.reservationId], r.log);
  }

  lemma LogGrows(h: Hashes, log: seq<AuditEvent<Fact>>, fact: Fact, actorId: string, correlationId: string,
                 stamp: Stamp)
    ensures log <= LogEvent(h, log, fact, actorId, correlationId, stamp)
  {
  }

  lemma FailureAccounted(h: Hashes, max: nat, db: Db, cfg: WorkerConfig, c: ClaimedMessage, error: string, stamp: Stamp)
    requires Inv(max, db) && Faithful(db, c) && HoldsLease(db, c)
    ensures var r := RecordFailure(h, db, cfg, c, error, stamp);
            if db.messages[c.id].attempts < cfg.maxAttempts then Silent(db, r.db)
            else Accounted(h, db, r.db, DeliveryFailed(c.aggregateId, c.id, db.messages[c.id].attempts,
                                                       ErrorText(error)))
  {
    hide Inv, RecordFailure, Accounted, Silent;
    if db.messages[c.id].attempts < cfg.maxAttempts {
      RetrySilent(h, max, db, cfg, c, error, stamp);
    } else {
      RejectionAccounted(h, max, db, cfg, c, error, stamp);
    }
  }

  lemma RetrySilent(h: Hashes, max: nat, db: Db, cfg: WorkerConfig, c: ClaimedMessage, error: string, stamp: Stamp)
    requires Inv(max, db) && Faithful(db, c) && HoldsLease(db, c) && db.messages[c.id].attempts < cfg.maxAttempts
    ensures Silent(db, RecordFailure(h, db, cfg, c, error, stamp).db)
  {
    hide Inv, Statuses, LogEvent, ErrorText, RetryDelay, RecordFailure;
    Behind(max, db, c.id);
    RetryIsMove(h, db, cfg, c, error, stamp);
    SameStatuses(db, c.id, AfterFailure(db.messages[c.id], cfg, error, stamp.at), db.log);
  }

  lemma RejectionAccounted(h: Hashes, max: nat, db: Db, cfg: WorkerConfig, c: ClaimedMessage, error: string,
                           stamp: Stamp)
    requires Inv(max, db) && Faithful(db, c) && HoldsLease(db, c) && db.messages[c.id].attempts >= cfg.maxAttempts
    ensures Accounted(h, db, RecordFailure(h, db, cfg, c, error, stamp).db,
                      DeliveryFailed(c.aggregateId, c.id, db.messages[c.id].attempts, ErrorText(error)))
  {
    hide Inv, Statuses, LogEvent, ErrorText, RetryDelay, RecordFailure, SystemActor;
    Behind(max, db, c.id);
    BooksBehind(max, db, c.id);
    RejectionIsMove(h, db, cfg, c, error, stamp);
    var m := AfterFailure(db.messages[c.id], cfg, error, stamp.at);
    var d := db.dispatches[c.aggregateId];
    var f := DeliveryFailed(c.aggregateId, c.id, db.messages[c.id].attempts, ErrorText(error));
    LogGrows(h, db.log, f, SystemActor(cfg), c.key, stamp);
    MovedStatuses(db, c.id, m, d.(status := Rejected), db.reservations[d.reservationId].(status := Cancelled),
                  LogEvent(h, db.log, f, SystemActor(cfg), c.key, stamp));
  }

  /** A failure that uses up the budget moves message, dispatch and reservation. */
  lemma RejectionIsMove(h: Hashes, db: Db, cfg: WorkerConfig, c: ClaimedMessage, error: string, stamp: Stamp)
    requires Faithful(db, c) && HoldsLease(db, c) && db.messages[c.id].attempts >= cfg.maxAttempts
    requires c.aggregateId in db.dispatches && db.dispatches[c.aggregateId].reservationId in db.reservations
    ensures var d := db.dispatches[c.aggregateId];
            var f := DeliveryFailed(c.aggregateId, c.id, db.messages[c.id].attempts, ErrorText(error));
            RecordFailure(h, db, cfg, c, error, stamp).db
            == Moved(db, c.id, AfterFailure(db.messages[c.id], cfg, error, stamp.at), d.(status := Rejected),
                     db.reservations[d.reservationId].(status := Cancelled),
                     LogEvent(h, db.log, f, SystemActor(cfg), c.key, stamp))
  {
    hide LogEvent, ErrorText, RetryDelay, SystemActor;
  }

  lemma RedriveAccounted(h: Hashes, max: nat, db: Db, actor: Actor, messageId: string, dispatchId: string,
                         reason: string, stamp: Stamp)
    requires Inv(max, db) && Redrive(h, db, actor, messageId, dispatchId, reason, stamp).Done?
    ensures exists f :: Accounted(h, db, Redrive(h, db, actor, messageId, dispatchId, reason, stamp).db, f)
  {
    hide Inv, Statuses, LogEvent, Squeeze;
    BooksBehind(max, db, messageId);
    var r := Redrive(h, db, actor, messageId, dispatchId, reason, stamp).db;
    var m := db.messages[messageId];
    var f := RedriveAuthorized(dispatchId, messageId, Squeeze(reason), m.attempts,
                               h.text(if m.lastError.Some? then m.lastError.value else ""));
    var d := r.dispatches[dispatchId];
    LogGrows(h, db.log, f, actor.actorId, m.key, stamp);
    MovedStatuses(db, messageId, r.messages[messageId], d, r.reservations[d.reservationId], r.log);
    assert r == Moved(db, messageId, r.messages[messageId], d, r.reservations[d.reservationId], r.log);
    assert Accounted(h, db, r, f);
  }

  // ---------------------------------------------------------------- commands

  lemma RegisterAccounted(h: Hashes, db: Db, cmd: AssetCreate, actor: Actor, assetId: string, correlationId: string,
                          stamp: Stamp)
    requires cmd.Accepted()
    ensures var r := RegisterAsset(h, db, cmd, actor, assetId, correlationId, stamp);
            r.Done? ==> exists f :: Accounted(h, db, r.db, f)
  {
    var r := RegisterAsset(h, db, cmd, actor, assetId, correlationId, stamp);
    hide LogEvent;
    if r.Done? {
      assert Accounted(h, db, r.db, AssetRegistered(assetId, cmd.externalId, cmd.assetType, cmd.capacity,
                                                    cmd.locationCode));
    }
  }

  lemma CreateOfferAccounted(h: Hashes, db: Db, cmd: OfferCreate, actor: Actor, offerId: string, correlationId: string,
                             stamp: Stamp)
    requires cmd.Accepted() && offerId !in db.offers
    ensures var r := CreateOffer(h, db, cmd, actor, offerId, correlationId, stamp);
            r.Done? ==> exists f :: Accounted(h, db, r.db, f)
  {
    var r := CreateOffer(h, db, cmd, actor, offerId, correlationId, stamp);
    hide LogEvent, Micro;
    if r.Done? {
      var f := OfferCreated(offerId, cmd.assetId, cmd.direction, cmd.quantity, cmd.price, cmd.windowStart,
                            cmd.windowEnd);
      var offer := r.db.offers[offerId];
      assert r.db == db.(offers := db.offers[offerId := offer], log := r.db.log) && offer.status == Open;
      assert r.db.log == LogEvent(h, db.log, f, actor.actorId, correlationId, stamp);
      hide CreateOffer;
      OfferedStatuses(db, offerId, offer, r.db.log, f);
      assert Accounted(h, db, r.db, f);
    }
  }

  lemma OfferedStatuses(db: Db, id: string, offer: Offer, log: seq<AuditEvent<Fact>>, f: Fact)
    requires id !in db.offers && offer.status == Open && f.OfferCreated? && f.offerId == id
    ensures var after := db.(offers := db.offers[id := offer], log := log);
            Permitted(Statuses(db), f) && Statuses(after) == Enter(Statuses(db), f)
  {
    assert id !in OfferBook(db.offers);
    OfferBookUpdate(db.offers, id, offer);
    hide OfferBook;
  }

  lemma ReserveAccounted(h: Hashes, max: nat, db: Db, offerId: string, cmd: ReservationCreate, actor: Actor,
                         key: string, reservationId: string, stamp: Stamp)
    requires Inv(max, db) && cmd.Accepted() && reservationId !in db.reservations
    ensures var r := Reserve(h, db, offerId, cmd, actor, key, reservationId, stamp);
            r.Done? ==> r.db == db || exists f :: Accounted(h, db, r.db, f)
  {
    hide Inv, LogEvent, Blank;
    var r := Reserve(h, db, offerId, cmd, actor, key, reservationId, stamp);
    ReserveShape(h, max, db, offerId, cmd, actor, key, reservationId, stamp);
    if r.Done? && r.db != db {
      var f := OfferTaken(reservationId, offerId, cmd.quantity);
      assert r.db.log == LogEvent(h, db.log, f, actor.actorId, key, stamp);
      hide Reserve;
      TakenStatuses(db, r.db, reservationId, offerId, f);
      assert Accounted(h, db, r.db, f);
    }
  }

  lemma TakenStatuses(db: Db, after: Db, reservationId: string, offerId: string, f: Fact)
    requires offerId in db.offers && db.offers[offerId].status == Open && reservationId !in db.reservations
    requires f.OfferTaken? && f.reservationId == reservationId && f.offerId == offerId
    requires reservationId in after.reservations && after.reservations[reservationId].status == Reserved
    requires after.reservations == db.reservations[reservationId := after.reservations[reservationId]]
    requires after.offers == db.offers[offerId := db.offers[offerId].(status := OfferReserved)]
    requires after.dispatches == db.dispatches && after.messages == db.messages
    ensures Permitted(Statuses(db), f) && Statuses(after) == Enter(Statuses(db), f)
  {
    OfferBookUpdate(db.offers, offerId, after.offers[offerId]);
    ReservationBookUpdate(db.reservations, reservationId, after.reservations[reservationId]);
  }

  lemma OfferBookUpdate(offers: map<string, Offer>, id: string, o: Offer)
    ensures OfferBook(offers[id := o]) == OfferBook(offers)[id := o.status]
  {
  }

  lemma IssueAccounted(h: Hashes, max: nat, db: Db, reservationId: string, cmd: DispatchCreate, actor: Actor,
                       key: string, dispatchId: string, messageId: string, stamp: Stamp)
    requires Inv(max, db) && cmd.Accepted() && dispatchId !in db.dispatches && messageId !in db.messages
    ensures var r := Issue(h, db, reservationId, cmd, actor, key, dispatchId, messageId, stamp);
            r.Done? ==> r.db == db || exists f :: Accounted(h, db, r.db, f)
  {
    hide Inv, LogEvent, Blank, MaySend, DispatchPayload, Issue, IssueNew, IssueWrites, Accounted;
    var r := Issue(h, db, reservationId, cmd, actor, key, dispatchId, messageId, stamp);
    IssueShape(h, max, db, reservationId, cmd, actor, key, dispatchId, messageId, stamp);
    if r.Done? && r.db != db {
      var f := DispatchQueued(dispatchId, reservationId, cmd.target, cmd.startsAt, cmd.endsAt, messageId);
      IssueLogs(h, db, reservationId, cmd, actor, key, dispatchId, messageId, stamp);
      SentStatuses(db, r, reservationId, cmd, key, dispatchId, messageId, f);
      SentAccounted(h, db, r, reservationId, cmd, actor, key, dispatchId, messageId, stamp, f);
    }
  }

  lemma IssueLogs(h: Hashes, db: Db, reservationId: string, cmd: DispatchCreate, actor: Actor, key: string,
                  dispatchId: string, messageId: string, stamp: Stamp)
    requires cmd.Accepted()
    ensures var r := Issue(h, db, reservationId, cmd, actor, key, dispatchId, messageId, stamp);
            var f := DispatchQueued(dispatchId, reservationId, cmd.target, cmd.startsAt, cmd.endsAt, messageId);
            r.Done? && r.db != db ==> r.db.log == LogEvent(h, db.log, f, actor.actorId, key, stamp)
  {
    hide LogEvent, IdempotentResource, Enqueue, Micro;
  }

  lemma SentAccounted(h: Hashes, db: Db, o: Outcome<string>, reservationId: string, cmd: DispatchCreate, actor: Actor,
                      key: string, dispatchId: string, messageId: string, stamp: Stamp, f: Fact)
    requires IssueWrites(db, o, reservationId, cmd, key, dispatchId, messageId) && f.DispatchQueued?
    requires Permitted(Statuses(db), f) && Statuses(o.db) == Enter(Statuses(db), f)
    requires o.db.log == LogEvent(h, db.log, f, actor.actorId, key, stamp)
    ensures Accounted(h, db, o.db, f)
  {
    hide LogEvent, MaySend, Permitted, Statuses, Enter;
  }

  lemma SentStatuses(db: Db, o: Outcome<string>, reservationId: string, cmd: DispatchCreate, key: string,
                     dispatchId: string, messageId: string, f: Fact)
    requires IssueWrites(db, o, reservationId, cmd, key, dispatchId, messageId)
    requires dispatchId !in db.dispatches && messageId !in db.messages
    requires f == DispatchQueued(dispatchId, reservationId, cmd.target, cmd.startsAt, cmd.endsAt, messageId)
    ensures Permitted(Statuses(db), f) && Statuses(o.db) == Enter(Statuses(db), f)
  {
    hide DispatchPayload, SignalOf, OnWire, Blank, DispatchInWindow;
    DispatchBookUpdate(db.dispatches, dispatchId, o.db.dispatches[dispatchId]);
    ReservationBookUpdate(db.reservations, reservationId, o.db.reservations[reservationId]);
    MessageBookUpdate(db.messages, messageId, o.db.messages[messageId]);
  }

  lemma RecordReadingAccounted(h: Hashes, db: Db, cmd: MeterReadingCreate, actor: Actor, readingId: string,
                               stamp: Stamp)
    requires cmd.Accepted()
    ensures var r := RecordReading(h, db, cmd, actor, readingId, stamp);
            r.Done? ==> r.db == db || exists f :: Accounted(h, db, r.db, f)
  {
    hide LogEvent, ReadingWith, Micro;
    var r := RecordReading(h, db, cmd, actor, readingId, stamp);
    if r.Done? && r.db != db {
      var f := ReadingRecorded(readingId, cmd.assetId, cmd.intervalStart, cmd.intervalEnd, cmd.energy, cmd.source,
                               h.reading(cmd));
      assert Accounted(h, db, r.db, f);
    }
  }

  lemma SettledAccounted(h: Hashes, db: Db, reservationId: string, dispatchId: string, readingIds: seq<string>,
                         bill: Bill, actor: Actor, key: string, requestHash: string, settlementId: string, stamp: Stamp)
    requires MaySettle(db, reservationId, dispatchId, readingIds, bill, actor.actorId, key)
    ensures var offer := db.offers[db.reservations[reservationId].offerId];
            Accounted(h, db, Settled(h, db, reservationId, dispatchId, readingIds, bill, actor, key, requestHash,
                                     settlementId, stamp),
                      SettlementCalculated(settlementId, reservationId, dispatchId, readingIds,
                                           FromColumn(bill.delivered), FromColumn(offer.price),
                                               FromColumn(bill.amount)))
  {
    hide WindowReadings, Energies, Decimals.Settle, Blank, LogEvent;
    var offer := db.offers[db.reservations[reservationId].offerId];
    var after := Settled(h, db, reservationId, dispatchId, readingIds, bill, actor, key, requestHash, settlementId,
                         stamp);
    var f := SettlementCalculated(settlementId, reservationId, dispatchId, readingIds, FromColumn(bill.delivered),
                                  FromColumn(offer.price), FromColumn(bill.amount));
    DispatchBookUpdate(db.dispatches, dispatchId, after.dispatches[dispatchId]);
    ReservationBookUpdate(db.reservations, reservationId, after.reservations[reservationId]);
    assert after.log == LogEvent(h, db.log, f, actor.actorId, key, stamp);
  }

  lemma SettleAccounted(h: Hashes, max: nat, db: Db, reservationId: string, actor: Actor, key: string,
                        settlementId: string, stamp: Stamp)
    requires Inv(max, db)
    ensures var r := Coordination.Settle(h, db, reservationId, actor, key, settlementId, stamp);
            r.Done? ==> r.db == db || exists f :: Accounted(h, db, r.db, f)
  {
    hide Inv, LogEvent, Blank, Settled, WindowReadings, Energies, Decimals.Settle, Coordination.Settle, Accounted;
    var r := Coordination.Settle(h, db, reservationId, actor, key, settlementId, stamp);
    SettleShape(h, max, db, reservationId, actor, key, settlementId, stamp);
    if r.Done? && r.db != db {
      var hash := h.request(SettleRequest(reservationId, actor.actorId));
      var dispatchId, readingIds, bill :|
        && MaySettle(db, reservationId, dispatchId, readingIds, bill, actor.actorId, key)
        && r.db == Settled(h, db, reservationId, dispatchId, readingIds, bill, actor, key, hash, settlementId, stamp);
      SettledAccounted(h, db, reservationId, dispatchId, readingIds, bill, actor, key, hash, settlementId, stamp);
    }
  }
}
