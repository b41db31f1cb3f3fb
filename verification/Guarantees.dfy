/** What the platform promises over whole runs. */
module Guarantees {
  import opened Wrappers
  import opened Text
  import opened Decimals
  import opened AuditChain
  import opened Domain
  import opened Outbox
  import opened Coordination
  import opened Invariants
  import opened Preservation
  import opened Replay
  import opened Evidence
  import opened Machine
  import opened MachineInvariants
  import opened MachineSafety

  /** A state that some run reaches from an empty database. */
  ghost predicate Reachable(h: Hashes, max: nat, w: World) {
    exists clock, run :: Legal(h, max, Start(clock), run) && w == EndOf(h, max, Start(clock), run)
  }

  lemma ReachableInv(h: Hashes, max: nat, w: World)
    requires max >= 1 && Reachable(h, max, w)
    ensures WorldInv(h, max, w)
  {
    hide WorldInv, Legal, EndOf;
    var clock, run :| Legal(h, max, Start(clock), run) && w == EndOf(h, max, Start(clock), run);
    StartOk(h, max, clock);
    RunKeeps(h, max, Start(clock), run);
  }

  lemma ReachableParts(h: Hashes, max: nat, w: World)
    requires max >= 1 && Reachable(h, max, w)
    ensures Inv(max, w.db) && LogInv(h, w.db) && EvidenceInv(h, w.db)
    ensures TablesOk(max, w.db.messages, w.flights, w.tokens, w.claims, w.deliveries, w.failures, w.clock)
  {
    hide WorldInv, TablesOk, DbInv, Inv, LogInv, EvidenceInv;
    ReachableInv(h, max, w);
    Parts(h, max, w);
    DbHasInv(h, max, w.db);
  }

  // -------------------------------------------------------------- audit trail

  /** In every reachable state the audit log verifies, every event in it was permitted
      when it was written, folding it gives the status of every row, and the events of
      each dispatch spell its life up to its present status. */
  lemma LogTellsState(h: Hashes, max: nat, w: World)
    requires max >= 1 && Reachable(h, max, w)
    ensures Verdict(h.event, w.db.log) == AuditVerification(true, |w.db.log|, HeadHash(w.db.log), None)
    ensures Lawful(w.db.log) && Replayed(w.db.log) == Statuses(w.db)
    ensures forall d :: d in w.db.dispatches ==> LivesSo(History(w.db.log, d), w.db.dispatches[d].status)
    ensures forall d :: d !in w.db.dispatches ==> History(w.db.log, d) == []
  {
    hide TablesOk, Inv, EvidenceInv, Lawful, Replayed, RecordedIn, Reachable;
    ReachableParts(h, max, w);
    assert Statuses(w.db).dispatches == DispatchBook(w.db.dispatches);
    forall d ensures d in w.db.dispatches ==> LivesSo(History(w.db.log, d), w.db.dispatches[d].status)
             ensures d !in w.db.dispatches ==> History(w.db.log, d) == []
    {
      LawfulLives(w.db.log, d);
    }
  }

  /** In every reachable state each settlement's evidence can be recomputed: hash, arithmetic,
      the audit event it names, and the listed readings, which are those of the asset that
      lie in the dispatch window and were recorded before that event, by start and id. */
  lemma EvidenceRecomputes(h: Hashes, max: nat, w: World, id: string)
    requires max >= 1 && Reachable(h, max, w) && id in w.db.settlements
    ensures Evidenced(h, w.db, id, w.db.settlements[id])
    ensures exists n: nat :: AuditedAt(w.db, id, n) && PaysWindow(w.db, w.db.settlements[id], n)
    ensures forall i :: 0 <= i < |w.db.settlements[id].manifest.readingIds| ==>
              w.db.settlements[id].manifest.readingIds[i] in w.db.readings
    ensures Bill(w.db.settlements[id].delivered, w.db.settlements[id].amount)
            == ExactBill(Energies(w.db.readings, w.db.settlements[id].manifest.readingIds), w.db.settlements[id].price)
    ensures var s := w.db.settlements[id];
            0 - Pow10(6) <= 2 * (s.delivered * s.price - s.amount * Pow10(6)) < Pow10(6)
  {
    hide TablesOk, Inv, LogInv, Evidenced, Reachable, Energies, ExactBill;
    ReachableParts(h, max, w);
    FiguresExact(h, w.db, id, w.db.settlements[id]);
    EvidencedWindow(h, w.db, id);
  }

  /** The event at position n is the one that a settlement names, with its figures. */
  predicate AuditedAt(db: Db, id: string, n: nat)
    requires id in db.settlements
  {
    var s := db.settlements[id];
    && n < |db.log| && db.log[n].hashed.eventId == s.manifest.auditEventId
    && db.log[n].eventHash == s.manifest.auditHeadHash
    && db.log[n].hashed.payload
       == SettlementCalculated(id, s.reservationId, s.manifest.dispatchId, s.manifest.readingIds,
                               FromColumn(s.delivered), FromColumn(s.price), FromColumn(s.amount))
  }

  lemma EvidencedWindow(h: Hashes, db: Db, id: string)
    requires id in db.settlements && Evidenced(h, db, id, db.settlements[id])
    ensures exists n: nat :: AuditedAt(db, id, n) && PaysWindow(db, db.settlements[id], n)
  {
    hide WindowReadings, Decimals.Settle, PaysWindow, ReadingsAt, Energies;
    var n: nat :| EvidencedAt(db, id, db.settlements[id], n);
    EvidencedPays(h, db, id, db.settlements[id], n);
    assert AuditedAt(db, id, n);
  }

  lemma FiguresExact(h: Hashes, db: Db, id: string, s: Settlement)
    requires Evidenced(h, db, id, s)
    ensures forall i :: 0 <= i < |s.manifest.readingIds| ==> s.manifest.readingIds[i] in db.readings
    ensures Bill(s.delivered, s.amount) == ExactBill(Energies(db.readings, s.manifest.readingIds), s.price)
    ensures 0 - Pow10(6) <= 2 * (s.delivered * s.price - s.amount * Pow10(6)) < Pow10(6)
  {
    hide EvidencedAt, ExactBill, BillFits, Energies, Decimals.Settle, Pow10;
    SettleIsExact(Energies(db.readings, s.manifest.readingIds), s.price);
    AmountWithinHalfUnit(Energies(db.readings, s.manifest.readingIds), s.price);
  }

  // ------------------------------------------------------------- joint status

  /** Each dispatch has exactly one message, and the statuses of message, dispatch and
      reservation go together. */
  lemma StatusesAgree(h: Hashes, max: nat, w: World, d: string)
    requires max >= 1 && Reachable(h, max, w) && d in w.db.dispatches
    ensures w.db.dispatches[d].reservationId in w.db.reservations
    ensures exists id :: id in w.db.messages && w.db.messages[id].aggregateId == d
    ensures forall id, other | id in w.db.messages && other in w.db.messages && w.db.messages[id].aggregateId == d
            && w.db.messages[other].aggregateId == d :: id == other
    ensures forall id | id in w.db.messages && w.db.messages[id].aggregateId == d ::
              var m, ds, rs := w.db.messages[id].status, w.db.dispatches[d].status,
                  w.db.reservations[w.db.dispatches[d].reservationId].status;
              && (m in {Pending, Processing} <==> ds == Queued) && (ds == Queued <==> rs == DispatchPending)
              && (m == Dead <==> ds == Rejected) && (ds == Rejected <==> rs == Cancelled)
              && (m == Published <==> ds in {Issued, DispatchCompleted}) && (ds == Issued <==> rs == Dispatched)
              && (ds == DispatchCompleted <==> rs == ReservationCompleted)
  {
    hide TablesOk, Reachable, LogInv, EvidenceInv, Inv;
    ReachableParts(h, max, w);
    MessagesBehind(max, w.db, d);
    forall id | id in w.db.messages && w.db.messages[id].aggregateId == d
      ensures Agree(w.db.messages[id].status, w.db.dispatches[d].status,
                    w.db.reservations[w.db.dispatches[d].reservationId].status)
    {
      Behind(max, w.db, id);
    }
  }

  lemma MessagesBehind(max: nat, db: Db, d: string)
    requires Inv(max, db) && d in db.dispatches
    ensures db.dispatches[d].reservationId in db.reservations
    ensures exists id :: id in db.messages && db.messages[id].aggregateId == d
    ensures forall id, other | id in db.messages && other in db.messages && db.messages[id].aggregateId == d
            && db.messages[other].aggregateId == d :: id == other
  {
    assert DispatchStages(db.dispatches, db.messages) && HasMessage(db.messages, d);
    assert MessagesOk(max, db.messages) && DispatchesOk(db.dispatches, db.reservations, db.offers);
    hide Inv, DispatchInWindow, LeaseColumns, WithinBudget;
  }

  /** A reservation is completed if and only if it has a settlement; it has one at most,
      settled by someone other than its requester and its dispatcher. */
  lemma CompletedMeansSettledOnce(h: Hashes, max: nat, w: World, r: string)
    requires max >= 1 && Reachable(h, max, w) && r in w.db.reservations
    ensures w.db.reservations[r].status == ReservationCompleted <==>
              exists s :: s in w.db.settlements && w.db.settlements[s].reservationId == r
    ensures forall s, t | s in w.db.settlements && t in w.db.settlements
                          && w.db.settlements[s].reservationId == r && w.db.settlements[t].reservationId == r :: s == t
    ensures forall s, d | s in w.db.settlements && d in w.db.dispatches
                          && w.db.settlements[s].reservationId == r && w.db.dispatches[d].reservationId == r ::
              && w.db.settlements[s].settledBy != w.db.dispatches[d].issuedBy
              && w.db.settlements[s].settledBy != w.db.reservations[r].requestedBy
  {
    hide TablesOk, Reachable, LogInv, EvidenceInv, OffersOk, ReservationsOk, DispatchesOk, MessagesOk, JointStatus,
      OfferStages, DispatchStages, Payloads, KeysRecorded, RecordsOk, HasDispatch;
    ReachableParts(h, max, w);
  }

  /** Re-drive of a dispatch succeeds exactly when a recovery operator gives a reason of at
      least twelve characters, its words set apart by single spaces, for a dead message of
      that dispatch: the further checks cannot fail. */
  lemma RedriveNeedsOnlyDead(h: Hashes, max: nat, w: World, actor: Actor, messageId: string, dispatchId: string,
                             reason: string, stamp: Stamp)
    requires max >= 1 && Reachable(h, max, w)
    ensures Redrive(h, w.db, actor, messageId, dispatchId, reason, stamp).Done? <==>
              && actor.role == RecoveryOperator && |Joined(Words(reason))| >= 12
              && messageId in w.db.messages && w.db.messages[messageId].aggregateId == dispatchId
              && w.db.messages[messageId].status == Dead
  {
    hide Squeeze, Words, Joined, LogEvent, TablesOk, LogInv, EvidenceInv, Inv, Reachable;
    ReachableParts(h, max, w);
    SqueezeJoins(reason);
    if messageId in w.db.messages { Behind(max, w.db, messageId); }
  }

  /** A worker's finalization never meets a missing aggregate, and whatever it changes
      belonged to a dispatch that was still queued: issued, completed and rejected
      dispatches are out of reach of late finalizations. */
  lemma FinalizationIsSafe(h: Hashes, max: nat, w: World, token: string, stamp: Stamp)
    requires max >= 1 && Reachable(h, max, w) && token in w.flights && w.flights[token].response.Some?
    ensures var f := w.flights[token];
            && (f.response.value.Ack? ==> RecordSuccess(h, w.db, f.cfg, f.claimed, f.response.value.reference,
                                                        stamp).Done?)
            && (Finalized(h, w.db, f, stamp) != w.db ==>
                  && w.db.messages[f.claimed.id].status == Processing
                  && f.claimed.aggregateId in w.db.dispatches
                  && w.db.dispatches[f.claimed.aggregateId].status == Queued)
            && (Finalized(h, w.db, f, stamp) != w.db <==> HoldsLease(w.db, f.claimed))
  {
    hide TablesOk, DbInv, FlightsOk, Fenced, LocksOk, FailuresOk, Reached, LogInv, EvidenceInv, Inv, Reachable;
    ReachableParts(h, max, w);
    assert DbInv(h, max, w.db) by { DbInvOf(h, max, w.db); }
    TablesHave(max, w, w.clock);
    FlightFaithful(max, w, token);
    var f := w.flights[token];
    Behind(max, w.db, f.claimed.id);
    if f.response.value.Ack? { SuccessKeeps(h, max, w.db, f.cfg, f.claimed, f.response.value.reference, stamp); }
    FinalizeDb(h, max, w.db, f, stamp);
    if HoldsLease(w.db, f.claimed) {
      FinalizedMessages(h, max, w.db, f, stamp);
      FinalRowDiffers(w.db.messages[f.claimed.id], f, stamp.at);
    }
  }

  lemma DbInvOf(h: Hashes, max: nat, db: Db)
    requires Inv(max, db) && LogInv(h, db) && EvidenceInv(h, db)
    ensures DbInv(h, max, db)
  {
  }

  lemma FinalRowDiffers(m: Message, f: Flight, now: int)
    requires f.response.Some? && m.lockedBy.Some?
    ensures FinalRow(m, f, now) != m
  {
    hide ErrorText, RetryDelay;
  }
}
