/** Idempotency over whole runs: what was answered once under a key is answered the same
    way ever after. */
module IdempotentReplay {
  import opened Text
  import opened Decimals
  import opened Signals
  import opened Domain
  import opened Outbox
  import opened Coordination
  import opened Invariants
  import opened CommandPreservation
  import opened Replay
  import opened Evidence
  import opened Machine
  import opened MachineInvariants
  import opened MachineSafety
  import opened Guarantees
  import opened Runs

  /** A key has a record of a request and of the resource it made. */
  predicate Answered(db: Db, op: Operation, key: string, requestHash: string, id: string) {
    && !Blank(key) && (op, key) in db.idempotency
    && db.idempotency[(op, key)] == IdempotencyRecord(requestHash, id)
    && ResourceExists(db, op, id)
  }

  lemma AnsweredStays(a: Db, b: Db, op: Operation, key: string, requestHash: string, id: string)
    requires Answered(a, op, key, requestHash, id) && Extends(a, b)
    ensures Answered(b, op, key, requestHash, id)
  {
    hide Blank, SameOffer, SameReservation, SameDispatch, SameMessage;
  }

  /** A key is answered exactly when its request is replayed; any other request under it
      is refused. */
  lemma AnsweredMeansReplay(db: Db, op: Operation, key: string, requestHash: string, id: string)
    ensures Answered(db, op, key, requestHash, id) <==> IdempotentResource(db, op, key, requestHash) == Replay(id)
    ensures Answered(db, op, key, requestHash, id) ==>
              forall other :: other != requestHash ==>
                  IdempotentResource(db, op, key, other) == Refused(KeyReusedForOtherRequest)
  {
    hide Blank, ResourceExists;
  }

  /** Whatever runs between, a key that was answered stays answered. */
  lemma AnsweredLater(h: Hashes, max: nat, w: World, run: seq<Event>, op: Operation, key: string, requestHash: string,
                      id: string)
    requires max >= 1 && Reachable(h, max, w) && Legal(h, max, w, run) && Answered(w.db, op, key, requestHash, id)
    ensures Answered(EndOf(h, max, w, run).db, op, key, requestHash, id)
  {
    hide Reachable, WorldInv, Extends, Answered, Legal, EndOf;
    ReachableInv(h, max, w);
    RunExtends(h, max, w, run);
    AnsweredStays(w.db, EndOf(h, max, w, run).db, op, key, requestHash, id);
  }

  // ------------------------------------------------------------ reserve_offer

  lemma ReserveAnswers(h: Hashes, db: Db, offerId: string, cmd: ReservationCreate, actor: Actor, key: string,
                       newId: string, stamp: Stamp)
    requires cmd.Accepted()
    ensures var o := Reserve(h, db, offerId, cmd, actor, key, newId, stamp);
            o.Done? ==> Answered(o.db, ReserveOffer, key,
                                 h.request(ReserveRequest(offerId, cmd.quantity, actor.actorId)), o.value)
  {
    hide Blank, Micro, LogEvent;
  }

  /** After a reservation succeeded, the same request under the same key returns it and
      changes nothing, whatever steps came between; any other request is refused. */
  lemma ReserveReplays(h: Hashes, max: nat, w: World, c: Command, stamp: Stamp, run: seq<Event>, again: Command,
                       later: Stamp)
    requires max >= 1 && Reachable(h, max, w) && Enabled(max, w, Api(c), stamp) && c.ReserveCommand?
    requires Reserve(h, w.db, c.offerId, c.reservation, c.actor, c.key, c.newReservationId, stamp).Done?
    requires Legal(h, max, Next(h, max, w, Api(c), stamp), run)
    requires again.ReserveCommand? && again.reservation.Accepted() && again.key == c.key
    requires again.actor.role == MarketOperator
    ensures var id := Reserve(h, w.db, c.offerId, c.reservation, c.actor, c.key, c.newReservationId, stamp).value;
            var db := EndOf(h, max, Next(h, max, w, Api(c), stamp), run).db;
            id in db.reservations
            && Reserve(h, db, again.offerId, again.reservation, again.actor, again.key, again.newReservationId, later)
               == if h.request(ReserveRequest(again.offerId, again.reservation.quantity, again.actor.actorId))
                     == h.request(ReserveRequest(c.offerId, c.reservation.quantity, c.actor.actorId))
                  then Done(db, id) else Failed(KeyReusedForOtherRequest)
  {
    hide Reachable, Legal, EndOf, FreshEvent, IdempotentResource, Blank, LogEvent, Micro;
    var hash := h.request(ReserveRequest(c.offerId, c.reservation.quantity, c.actor.actorId));
    var id := Reserve(h, w.db, c.offerId, c.reservation, c.actor, c.key, c.newReservationId, stamp).value;
    ReserveAnswers(h, w.db, c.offerId, c.reservation, c.actor, c.key, c.newReservationId, stamp);
    ReachableNext(h, max, w, Api(c), stamp);
    AnsweredLater(h, max, Next(h, max, w, Api(c), stamp), run, ReserveOffer, c.key, hash, id);
    AnsweredMeansReplay(EndOf(h, max, Next(h, max, w, Api(c), stamp), run).db, ReserveOffer, c.key, hash, id);
  }

  // ----------------------------------------------------------- issue_dispatch

  lemma IssueAnswers(h: Hashes, db: Db, reservationId: string, cmd: DispatchCreate, actor: Actor, key: string,
                     newId: string, messageId: string, stamp: Stamp)
    requires cmd.Accepted()
    ensures var o := Issue(h, db, reservationId, cmd, actor, key, newId, messageId, stamp);
            o.Done? ==> Answered(o.db, IssueDispatch, key,
                                 h.request(DispatchRequest(reservationId, cmd.target, cmd.startsAt, cmd.endsAt,
                                                           actor.actorId)), o.value)
  {
    hide Blank, Micro, LogEvent, DispatchPayload;
  }

  /** The same for a dispatch. */
  lemma IssueReplays(h: Hashes, max: nat, w: World, c: Command, stamp: Stamp, run: seq<Event>, again: Command,
                     later: Stamp)
    requires max >= 1 && Reachable(h, max, w) && Enabled(max, w, Api(c), stamp) && c.IssueCommand?
    requires Issue(h, w.db, c.reservationId, c.dispatch, c.actor, c.key, c.dispatchId, c.messageId, stamp).Done?
    requires Legal(h, max, Next(h, max, w, Api(c), stamp), run)
    requires again.IssueCommand? && again.dispatch.Accepted() && again.key == c.key
    requires again.actor.role == MarketOperator
    ensures var id := Issue(h, w.db, c.reservationId, c.dispatch, c.actor, c.key, c.dispatchId, c.messageId,
                            stamp).value;
            var db := EndOf(h, max, Next(h, max, w, Api(c), stamp), run).db;
            id in db.dispatches
            && Issue(h, db, again.reservationId, again.dispatch, again.actor, again.key, again.dispatchId,
                     again.messageId, later)
               == if IssueHash(h, again) == IssueHash(h, c) then Done(db, id) else Failed(KeyReusedForOtherRequest)
  {
    hide Reachable, Legal, EndOf, FreshEvent, IdempotentResource, Blank, LogEvent, Micro, IssueNew;
    var id := Issue(h, w.db, c.reservationId, c.dispatch, c.actor, c.key, c.dispatchId, c.messageId, stamp).value;
    IssueAnswers(h, w.db, c.reservationId, c.dispatch, c.actor, c.key, c.dispatchId, c.messageId, stamp);
    ReachableNext(h, max, w, Api(c), stamp);
    AnsweredLater(h, max, Next(h, max, w, Api(c), stamp), run, IssueDispatch, c.key, IssueHash(h, c), id);
    AnsweredMeansReplay(EndOf(h, max, Next(h, max, w, Api(c), stamp), run).db, IssueDispatch, c.key, IssueHash(h, c),
                        id);
  }

  function IssueHash(h: Hashes, c: Command): string
    requires c.IssueCommand?
  {
    h.request(DispatchRequest(c.reservationId, c.dispatch.target, c.dispatch.startsAt, c.dispatch.endsAt,
                              c.actor.actorId))
  }

  // ------------------------------------------------------- settle_reservation

  lemma SettleAnswers(h: Hashes, db: Db, reservationId: string, actor: Actor, key: string, newId: string, stamp: Stamp)
    ensures var o := Coordination.Settle(h, db, reservationId, actor, key, newId, stamp);
            o.Done? ==> Answered(o.db, SettleReservation, key, h.request(SettleRequest(reservationId, actor.actorId)),
                                 o.value)
  {
    hide Blank, LogEvent, WindowReadings, Energies, DispatchOf, Decimals.Settle;
  }

  /** The same for a settlement. */
  lemma SettleReplays(h: Hashes, max: nat, w: World, c: Command, stamp: Stamp, run: seq<Event>, again: Command,
                      later: Stamp)
    requires max >= 1 && Reachable(h, max, w) && Enabled(max, w, Api(c), stamp) && c.SettleCommand?
    requires Coordination.Settle(h, w.db, c.reservationId, c.actor, c.key, c.settlementId, stamp).Done?
    requires Legal(h, max, Next(h, max, w, Api(c), stamp), run)
    requires again.SettleCommand? && again.key == c.key && again.actor.role == SettlementAnalyst
    ensures var id := Coordination.Settle(h, w.db, c.reservationId, c.actor, c.key, c.settlementId, stamp).value;
            var db := EndOf(h, max, Next(h, max, w, Api(c), stamp), run).db;
            id in db.settlements
            && Coordination.Settle(h, db, again.reservationId, again.actor, again.key, again.settlementId, later)
               == if h.request(SettleRequest(again.reservationId, again.actor.actorId))
                   == h.request(SettleRequest(c.reservationId, c.actor.actorId))
                  then Done(db, id) else Failed(KeyReusedForOtherRequest)
  {
    hide Reachable, Legal, EndOf, FreshEvent, IdempotentResource, Blank, LogEvent, SettleNew;
    var hash := h.request(SettleRequest(c.reservationId, c.actor.actorId));
    var id := Coordination.Settle(h, w.db, c.reservationId, c.actor, c.key, c.settlementId, stamp).value;
    SettleAnswers(h, w.db, c.reservationId, c.actor, c.key, c.settlementId, stamp);
    ReachableNext(h, max, w, Api(c), stamp);
    AnsweredLater(h, max, Next(h, max, w, Api(c), stamp), run, SettleReservation, c.key, hash, id);
    AnsweredMeansReplay(EndOf(h, max, Next(h, max, w, Api(c), stamp), run).db, SettleReservation, c.key, hash, id);
  }

  // -------------------------------------------------------------- outbox keys

  /** Dispatch records and messages belong together one to one: same key, same
      dispatch. */
  ghost predicate Paired(records: Records, messages: Messages) {
    && KeysRecorded(records, messages)
    && forall p :: p in records && p.0 == IssueDispatch ==> KeyedMessage(messages, p.1, records[p].resourceId)
  }

  ghost predicate KeyedMessage(messages: Messages, key: string, dispatchId: string) {
    exists x :: x in messages && messages[x].key == key && messages[x].aggregateId == dispatchId
  }

  /** A transaction that writes no dispatch record. */
  predicate NoDispatchRecord(db: Db, after: Db) {
    forall p :: p in after.idempotency && p.0 == IssueDispatch ==> p in db.idempotency
  }

  /** No command but `issue_dispatch` writes a record for it. */
  lemma OtherRecords(h: Hashes, db: Db, c: Command, stamp: Stamp)
    requires Admissible(db, c) && !c.IssueCommand?
    ensures NoDispatchRecord(db, Perform(h, db, c, stamp))
  {
    hide RegisterAsset, CreateOffer, Reserve, Issue, RecordReading, Coordination.Settle, Redrive;
    match c
    case RegisterCommand(cmd, actor, id, correlationId) => RegisterRecords(h, db, cmd, actor, id, correlationId, stamp);
    case OfferCommand(cmd, actor, id, correlationId) => OfferRecords(h, db, cmd, actor, id, correlationId, stamp);
    case ReserveCommand(offerId, cmd, actor, key, id) => ReserveRecords(h, db, offerId, cmd, actor, key, id, stamp);
    case ReadingCommand(cmd, actor, id) => ReadingRecords(h, db, cmd, actor, id, stamp);
    case SettleCommand(reservationId, actor, key, id) => SettleRecords(h, db, reservationId, actor, key, id, stamp);
    case RedriveCommand(actor, messageId, dispatchId, reason) =>
      RedriveRecords(h, db, actor, messageId, dispatchId, reason, stamp);
  }

  lemma RegisterRecords(h: Hashes, db: Db, cmd: AssetCreate, actor: Actor, id: string, correlationId: string,
                        stamp: Stamp)
    requires cmd.Accepted()
    ensures NoDispatchRecord(db, Committed(RegisterAsset(h, db, cmd, actor, id, correlationId, stamp), db))
  {
    hide LogEvent, Micro;
  }

  lemma OfferRecords(h: Hashes, db: Db, cmd: OfferCreate, actor: Actor, id: string, correlationId: string, stamp: Stamp)
    requires cmd.Accepted()
    ensures NoDispatchRecord(db, Committed(CreateOffer(h, db, cmd, actor, id, correlationId, stamp), db))
  {
    hide LogEvent, Micro;
  }

  lemma ReserveRecords(h: Hashes, db: Db, offerId: string, cmd: ReservationCreate, actor: Actor, key: string,
                       id: string, stamp: Stamp)
    requires cmd.Accepted()
    ensures NoDispatchRecord(db, Committed(Reserve(h, db, offerId, cmd, actor, key, id, stamp), db))
  {
    hide LogEvent, Micro, IdempotentResource;
  }

  lemma ReadingRecords(h: Hashes, db: Db, cmd: MeterReadingCreate, actor: Actor, id: string, stamp: Stamp)
    requires cmd.Accepted()
    ensures NoDispatchRecord(db, Committed(RecordReading(h, db, cmd, actor, id, stamp), db))
  {
    hide LogEvent, Micro, ReadingWith;
  }

  lemma SettleRecords(h: Hashes, db: Db, reservationId: string, actor: Actor, key: string, id: string, stamp: Stamp)
    ensures NoDispatchRecord(db, Committed(Coordination.Settle(h, db, reservationId, actor, key, id, stamp), db))
  {
    hide LogEvent, IdempotentResource, WindowReadings, Decimals.Settle, Energies, DispatchOf;
  }

  lemma RedriveRecords(h: Hashes, db: Db, actor: Actor, messageId: string, dispatchId: string, reason: string,
                       stamp: Stamp)
    ensures NoDispatchRecord(db, Committed(Redrive(h, db, actor, messageId, dispatchId, reason, stamp), db))
  {
    hide LogEvent, Squeeze;
  }

  lemma IssueRecords(h: Hashes, max: nat, db: Db, c: Command, stamp: Stamp)
    requires Inv(max, db) && Admissible(db, c) && c.IssueCommand?
    ensures var after := Perform(h, db, c, stamp);
            forall p :: p in after.idempotency && p.0 == IssueDispatch && p !in db.idempotency ==>
              KeyedMessage(after.messages, p.1, after.idempotency[p].resourceId)
  {
    hide Inv, Blank, Issue;
    var o := Issue(h, db, c.reservationId, c.dispatch, c.actor, c.key, c.dispatchId, c.messageId, stamp);
    IssueShape(h, max, db, c.reservationId, c.dispatch, c.actor, c.key, c.dispatchId, c.messageId, stamp);
    if o.Done? && o.db != db {
      assert o.db.messages[c.messageId].aggregateId == c.dispatchId;
      assert KeyedMessage(o.db.messages, c.key, c.dispatchId);
    }
  }

  lemma WorkerRecords(h: Hashes, max: nat, w: World, step: Step, stamp: Stamp)
    requires Enabled(max, w, step, stamp) && !step.Api?
    ensures Next(h, max, w, step, stamp).db.idempotency == w.db.idempotency
  {
    hide FreshEvent, Claim, Finalized, Decode;
    match step
    case ClaimStep(cfg, token) => ClaimRecords(w.db, cfg, token, stamp.at);
    case FinalizeStep(token) => FinalizedRecords(h, w.db, w.flights[token], stamp);
    case _ =>
  }

  lemma ClaimRecords(db: Db, cfg: WorkerConfig, token: string, now: int)
    ensures Claim(db, cfg, token, now).db.idempotency == db.idempotency
  {
  }

  lemma FinalizedRecords(h: Hashes, db: Db, f: Flight, stamp: Stamp)
    requires f.response.Some?
    ensures Finalized(h, db, f, stamp).idempotency == db.idempotency
  {
    hide RecordSuccess, RecordFailure;
    match f.response.value
    case Ack(reference) => SuccessRecords(h, db, f.cfg, f.claimed, reference, stamp);
    case Raise(error) => FailureRecords(h, db, f.cfg, f.claimed, error, stamp);
  }

  lemma SuccessRecords(h: Hashes, db: Db, cfg: WorkerConfig, c: ClaimedMessage, reference: string, stamp: Stamp)
    ensures var r := RecordSuccess(h, db, cfg, c, reference, stamp); r.Done? ==> r.db.idempotency == db.idempotency
  {
    hide LogEvent;
  }

  lemma FailureRecords(h: Hashes, db: Db, cfg: WorkerConfig, c: ClaimedMessage, error: string, stamp: Stamp)
    ensures RecordFailure(h, db, cfg, c, error, stamp).db.idempotency == db.idempotency
  {
    hide LogEvent, AfterFailure, ErrorText, Rejection;
  }

  lemma NewRecords(h: Hashes, max: nat, w: World, step: Step, stamp: Stamp)
    requires Inv(max, w.db) && Enabled(max, w, step, stamp)
    ensures var after := Next(h, max, w, step, stamp).db;
            forall p :: p in after.idempotency && p.0 == IssueDispatch && p !in w.db.idempotency ==>
              KeyedMessage(after.messages, p.1, after.idempotency[p].resourceId)
  {
    hide Inv, Perform, KeyedMessage, FreshEvent;
    if step.Api? {
      if step.command.IssueCommand? { IssueRecords(h, max, w.db, step.command, stamp); }
      else { OtherRecords(h, w.db, step.command, stamp); }
    } else {
      WorkerRecords(h, max, w, step, stamp);
    }
  }

  lemma PairedNext(h: Hashes, max: nat, w: World, step: Step, stamp: Stamp)
    requires WorldInv(h, max, w) && max >= 1 && Enabled(max, w, step, stamp) && Paired(w.db.idempotency, w.db.messages)
    ensures var after := Next(h, max, w, step, stamp).db; Paired(after.idempotency, after.messages)
  {
    hide WorldInv, Enabled, Next, Inv, DbInv, TablesOk;
    var after := Next(h, max, w, step, stamp);
    NextExtends(h, max, w, step, stamp);
    NextKeeps(h, max, w, step, stamp);
    Parts(h, max, w); DbHasInv(h, max, w.db);
    Parts(h, max, after); DbHasInv(h, max, after.db);
    NewRecords(h, max, w, step, stamp);
    InvKeys(max, after.db);
    PairedExtends(w.db, after.db);
  }

  lemma InvKeys(max: nat, db: Db)
    requires Inv(max, db)
    ensures KeysRecorded(db.idempotency, db.messages)
  {
  }

  lemma PairedExtends(a: Db, b: Db)
    requires Paired(a.idempotency, a.messages) && Extends(a, b) && KeysRecorded(b.idempotency, b.messages)
    requires forall p :: p in b.idempotency && p.0 == IssueDispatch && p !in a.idempotency ==>
               KeyedMessage(b.messages, p.1, b.idempotency[p].resourceId)
    ensures Paired(b.idempotency, b.messages)
  {
    hide KeysRecorded;
    forall p | p in b.idempotency && p.0 == IssueDispatch ensures KeyedMessage(b.messages, p.1,
          b.idempotency[p].resourceId) {
      if p in a.idempotency { MessageStays(a, b, p.1, a.idempotency[p].resourceId); }
    }
  }

  lemma MessageStays(a: Db, b: Db, key: string, dispatchId: string)
    requires Extends(a, b) && KeyedMessage(a.messages, key, dispatchId)
    ensures KeyedMessage(b.messages, key, dispatchId)
  {
    var x :| x in a.messages && a.messages[x].key == key && a.messages[x].aggregateId == dispatchId;
    assert x in b.messages && SameMessage(a.messages[x], b.messages[x]);
    hide Extends;
  }

  lemma {:induction false} PairedRun(h: Hashes, max: nat, w: World, run: seq<Event>)
    requires WorldInv(h, max, w) && max >= 1 && Legal(h, max, w, run) && Paired(w.db.idempotency, w.db.messages)
    ensures var after := EndOf(h, max, w, run).db; Paired(after.idempotency, after.messages)
    decreases |run|
  {
    hide WorldInv, Enabled, Next, Paired;
    if run != [] {
      NextKeeps(h, max, w, run[0].step, run[0].stamp);
      PairedNext(h, max, w, run[0].step, run[0].stamp);
      PairedRun(h, max, Next(h, max, w, run[0].step, run[0].stamp), run[1..]);
    }
  }

  /** In every reachable state messages and `issue_dispatch` records correspond: each
      outbox key has its record, which names the message's dispatch, and each record is
      for the key of exactly one message and names a dispatch that no other record
      names. */
  lemma KeysAndRecordsPair(h: Hashes, max: nat, w: World)
    requires max >= 1 && Reachable(h, max, w)
    ensures forall x :: x in w.db.messages ==>
              (IssueDispatch, w.db.messages[x].key) in w.db.idempotency
              && w.db.idempotency[(IssueDispatch, w.db.messages[x].key)].resourceId == w.db.messages[x].aggregateId
    ensures forall key :: (IssueDispatch, key) in w.db.idempotency ==>
              KeyedMessage(w.db.messages, key, w.db.idempotency[(IssueDispatch, key)].resourceId)
    ensures forall key, other | (IssueDispatch, key) in w.db.idempotency
            && (IssueDispatch, other) in w.db.idempotency
            && w.db.idempotency[(IssueDispatch, key)].resourceId
               == w.db.idempotency[(IssueDispatch, other)].resourceId ::
              key == other
  {
    hide WorldInv, Legal, EndOf, Inv, TablesOk, LogInv, EvidenceInv;
    var clock, run :| Legal(h, max, Start(clock), run) && w == EndOf(h, max, Start(clock), run);
    StartOk(h, max, clock);
    PairedRun(h, max, Start(clock), run);
    ReachableParts(h, max, w);
    assert MessagesOk(max, w.db.messages) by { InvMessages(max, w.db); }
    hide LeaseColumns, WithinBudget;
  }

  /** From `issue_dispatch` the outbox's own errors cannot arise: neither its blank-key
      check nor its unique key nor any other sign of a broken database. */
  lemma IssueErrorsAreClient(h: Hashes, max: nat, w: World, c: Command, stamp: Stamp)
    requires max >= 1 && Reachable(h, max, w) && c.IssueCommand? && c.dispatch.Accepted()
    ensures var o := Issue(h, w.db, c.reservationId, c.dispatch, c.actor, c.key, c.dispatchId, c.messageId, stamp);
            o.Failed? ==> o.error in {RoleForbidden, BlankIdempotencyKey, KeyReusedForOtherRequest, ReservationNotFound,
                                      ReservationNotReserved, DispatchExceedsReservation, DispatchOutsideOffer}
  {
    hide Reachable, Inv, TablesOk, LogInv, EvidenceInv, Blank, LogEvent, Micro, DispatchPayload;
    ReachableParts(h, max, w);
    IssueShape(h, max, w.db, c.reservationId, c.dispatch, c.actor, c.key, c.dispatchId, c.messageId, stamp);
    if c.reservationId in w.db.reservations { BehindReservation(max, w.db, c.reservationId); }
  }

  /** Nor does a reservation ever meet a second one for its offer or a lost record. */
  lemma ReserveErrorsAreClient(h: Hashes, max: nat, w: World, c: Command, stamp: Stamp)
    requires max >= 1 && Reachable(h, max, w) && c.ReserveCommand? && c.reservation.Accepted()
    ensures var o := Reserve(h, w.db, c.offerId, c.reservation, c.actor, c.key, c.newReservationId, stamp);
            o.Failed? ==> o.error in {RoleForbidden, BlankIdempotencyKey, KeyReusedForOtherRequest, OfferNotFound,
                                      OfferNotOpen, ReservationExceedsOffer}
  {
    hide Reachable, Inv, TablesOk, LogInv, EvidenceInv, Blank, LogEvent, Micro;
    ReachableParts(h, max, w);
    ReserveShape(h, max, w.db, c.offerId, c.reservation, c.actor, c.key, c.newReservationId, stamp);
  }

  /** A dispatched reservation has its dispatch, and the dispatch is issued. */
  lemma DispatchedIsIssued(h: Hashes, max: nat, w: World, reservationId: string)
    requires max >= 1 && Reachable(h, max, w)
    requires reservationId in w.db.reservations && w.db.reservations[reservationId].status == Dispatched
    ensures DispatchOf(w.db, reservationId).Some?
    ensures w.db.dispatches[DispatchOf(w.db, reservationId).value].status == Issued
    ensures w.db.reservations[reservationId].offerId in w.db.offers
  {
    hide Reachable, Inv, TablesOk, LogInv, EvidenceInv, DispatchOf;
    ReachableParts(h, max, w);
    DispatchedReady(max, w.db, reservationId);
    StatusesAgree(h, max, w, DispatchOf(w.db, reservationId).value);
  }

  /** Settlement's own look at the dispatch cannot fail: a dispatched reservation has one,
      and it is issued. */
  lemma SettleErrorsAreClient(h: Hashes, max: nat, w: World, c: Command, stamp: Stamp)
    requires max >= 1 && Reachable(h, max, w) && c.SettleCommand?
    ensures var o := Coordination.Settle(h, w.db, c.reservationId, c.actor, c.key, c.settlementId, stamp);
            o.Failed? ==> o.error in {RoleForbidden, BlankIdempotencyKey, KeyReusedForOtherRequest, ReservationNotFound,
                                      ReservationNotDispatched, NotSeparateActor, NoReadings, ArithmeticOverflow}
  {
    hide Reachable, Inv, TablesOk, LogInv, EvidenceInv, Blank, Settled, DispatchOf, WindowReadings, Energies,
      Decimals.Settle;
    ReachableParts(h, max, w);
    SettleShape(h, max, w.db, c.reservationId, c.actor, c.key, c.settlementId, stamp);
    if c.reservationId in w.db.reservations && w.db.reservations[c.reservationId].status == Dispatched {
      DispatchedIsIssued(h, max, w, c.reservationId);
    }
  }
}
