/** What the outbox shows of each delivery is what the log says of it. */
module DeliveryRecords {
  import opened Wrappers
  import opened Text
  import opened Decimals
  import opened Ordering
  import opened AuditChain
  import opened Domain
  import opened Outbox
  import opened Coordination
  import opened Invariants
  import opened Preservation
  import opened Replay
  import opened Accounting
  import opened Evidence
  import opened Machine
  import opened MachineInvariants
  import opened MachineSafety
  import opened Guarantees
  import opened Runs
  import opened MessageSteps
  import opened Origins

  /** The event of a delivery, and the columns that show it. */
  predicate PublishedBy(e: AuditEvent<Fact>, x: string, m: Message, reference: string) {
    && e.hashed.payload == DispatchPublished(m.aggregateId, x, reference, m.attempts)
    && m.adapterReference == Some(reference) && m.publishedAt == Some(e.hashed.occurredAt)
    && m.updatedAt == e.hashed.occurredAt && m.lastError.None?
    && "system:" <= e.hashed.actorId && e.hashed.correlationId == m.key
  }

  /** The event of a final failure, and the columns that show it. */
  predicate FailedBy(e: AuditEvent<Fact>, x: string, m: Message, reference: string) {
    && m.lastError.Some? && |m.lastError.value| <= 2000
    && e.hashed.payload == DeliveryFailed(m.aggregateId, x, m.attempts, m.lastError.value)
    && m.updatedAt == e.hashed.occurredAt && m.adapterReference.None? && m.publishedAt.None?
    && reference == "outbox:" + x
    && "system:" <= e.hashed.actorId && e.hashed.correlationId == m.key
  }

  /** A message and the reference of its dispatch show its delivery. */
  ghost predicate Shown(log: seq<AuditEvent<Fact>>, x: string, m: Message, reference: string) {
    match m.status
    case Pending => m.adapterReference.None? && m.publishedAt.None? && reference == "outbox:" + x
    case Processing => m.adapterReference.None? && m.publishedAt.None? && reference == "outbox:" + x
    case Published => exists i :: 0 <= i < |log| && PublishedBy(log[i], x, m, reference)
    case Dead => exists i :: 0 <= i < |log| && FailedBy(log[i], x, m, reference)
  }

  ghost predicate AllShown(db: Db) {
    forall x :: x in db.messages ==>
      && db.messages[x].aggregateId in db.dispatches
      && Shown(db.log, x, db.messages[x], db.dispatches[db.messages[x].aggregateId].adapterReference)
  }

  lemma ShownLonger(log: seq<AuditEvent<Fact>>, log': seq<AuditEvent<Fact>>, x: string, m: Message, reference: string)
    requires Shown(log, x, m, reference) && log <= log'
    ensures Shown(log', x, m, reference)
  {
    hide PublishedBy, FailedBy;
    if m.status == Published {
      var i :| 0 <= i < |log| && PublishedBy(log[i], x, m, reference);
      assert log'[i] == log[i];
    } else if m.status == Dead {
      var i :| 0 <= i < |log| && FailedBy(log[i], x, m, reference);
      assert log'[i] == log[i];
    }
  }

  /** Rewriting one message with its dispatch leaves what is shown of the others. */
  lemma MovedShown(max: nat, db: Db, id: string, m: Message, d: Dispatch, r: Reservation, log: seq<AuditEvent<Fact>>)
    requires Inv(max, db) && AllShown(db) && Rewrites(db, id, m, d, r, log) && Shown(log, id, m, d.adapterReference)
    ensures AllShown(Moved(db, id, m, d, r, log))
  {
    hide Shown, Inv;
    var after := Moved(db, id, m, d, r, log);
    forall x | x in after.messages
      ensures after.messages[x].aggregateId in after.dispatches
      ensures Shown(log, x, after.messages[x], after.dispatches[after.messages[x].aggregateId].adapterReference)
    {
      if x != id {
        DispatchesApart(max, db, id, x);
        ShownLonger(db.log, log, x, db.messages[x], db.dispatches[db.messages[x].aggregateId].adapterReference);
      }
    }
  }

  lemma DispatchesApart(max: nat, db: Db, id: string, x: string)
    requires Inv(max, db) && id in db.messages && x in db.messages && x != id
    ensures db.messages[x].aggregateId in db.dispatches && db.messages[x].aggregateId != db.messages[id].aggregateId
  {
    OthersApart(max, db, id, x);
  }

  /** A transaction that adds messages with their dispatches, and changes no message and no
      reference. */
  ghost predicate OnlyQueues(a: Db, b: Db, now: int) {
    && a.log <= b.log
    && (forall x :: x in a.messages ==> x in b.messages && b.messages[x] == a.messages[x])
    && (forall d :: d in a.dispatches ==>
          d in b.dispatches && b.dispatches[d].adapterReference == a.dispatches[d].adapterReference)
    && (forall x :: x in b.messages && x !in a.messages ==>
          && Fresh(b.messages[x], now) && b.messages[x].aggregateId in b.dispatches
          && b.dispatches[b.messages[x].aggregateId].adapterReference == "outbox:" + x)
  }

  lemma QueuesShown(a: Db, b: Db, now: int)
    requires AllShown(a) && OnlyQueues(a, b, now)
    ensures AllShown(b)
  {
    forall x | x in a.messages
      ensures b.messages[x].aggregateId in b.dispatches
      ensures Shown(b.log, x, b.messages[x], b.dispatches[b.messages[x].aggregateId].adapterReference)
    {
      ShownLonger(a.log, b.log, x, a.messages[x], a.dispatches[a.messages[x].aggregateId].adapterReference);
    }
  }

  // ---------------------------------------------------------------- commands

  lemma QuietCommands(h: Hashes, db: Db, c: Command, stamp: Stamp)
    requires Admissible(db, c) && (c.RegisterCommand? || c.OfferCommand? || c.ReserveCommand? || c.ReadingCommand?)
    ensures Perform(h, db, c, stamp).dispatches == db.dispatches && Perform(h, db, c, stamp).messages == db.messages
  {
    hide LogEvent, Blank, Micro, ReadingWith, Issue, Redrive, Coordination.Settle, Numeric18;
  }

  lemma SettleQuiet(h: Hashes, db: Db, reservationId: string, actor: Actor, key: string, id: string, stamp: Stamp)
    ensures var b := Committed(Coordination.Settle(h, db, reservationId, actor, key, id, stamp), db);
            && b.messages == db.messages
            && (forall d :: d in db.dispatches ==>
                  d in b.dispatches && b.dispatches[d].adapterReference == db.dispatches[d].adapterReference)
  {
    hide LogEvent, IdempotentResource, WindowReadings, Decimals.Settle, Energies, DispatchOf;
  }

  lemma IssueQuiet(h: Hashes, db: Db, reservationId: string, cmd: DispatchCreate, actor: Actor, key: string, id: string,
                   messageId: string, stamp: Stamp)
    requires cmd.Accepted() && id !in db.dispatches && messageId !in db.messages
    ensures var b := Committed(Issue(h, db, reservationId, cmd, actor, key, id, messageId, stamp), db);
            b.log == db.log || db.log <= b.log ==> OnlyQueues(db, b, stamp.at)
  {
    hide LogEvent, IdempotentResource, IssueNew, Micro, Numeric18;
    var hash := h.request(DispatchRequest(reservationId, cmd.target, cmd.startsAt, cmd.endsAt, actor.actorId));
    IssueNewQueues(h, db, reservationId, cmd, actor, key, hash, id, messageId, stamp);
    hide Fresh;
  }

  lemma CommandShown(h: Hashes, max: nat, db: Db, c: Command, stamp: Stamp)
    requires Inv(max, db) && max >= 1 && Admissible(db, c) && AllShown(db)
    ensures AllShown(Perform(h, db, c, stamp))
  {
    hide Inv, AllShown, RegisterAsset, CreateOffer, Reserve, Issue, RecordReading, Coordination.Settle, Redrive, Fresh;
    PerformKeeps(h, max, db, c, stamp);
    var b := Perform(h, db, c, stamp);
    if c.RedriveCommand? {
      RedriveShown(h, max, db, c.actor, c.messageId, c.dispatchId, c.reason, stamp);
    } else {
      if c.IssueCommand? {
        IssueQuiet(h, db, c.reservationId, c.dispatch, c.actor, c.key, c.dispatchId, c.messageId, stamp);
      } else if c.SettleCommand? {
        SettleQuiet(h, db, c.reservationId, c.actor, c.key, c.settlementId, stamp);
      } else {
        QuietCommands(h, db, c, stamp);
      }
      QueuesShown(db, b, stamp.at);
    }
  }

  lemma RedriveShown(h: Hashes, max: nat, db: Db, actor: Actor, messageId: string, dispatchId: string, reason: string,
                     stamp: Stamp)
    requires Inv(max, db) && AllShown(db)
    ensures AllShown(Committed(Redrive(h, db, actor, messageId, dispatchId, reason, stamp), db))
  {
    hide Inv, AllShown, LogEvent, Squeeze;
    var o := Redrive(h, db, actor, messageId, dispatchId, reason, stamp);
    if o.Done? {
      var d := o.db.dispatches[dispatchId];
      LogGrows(h, db.log, RedriveAuthorized(dispatchId, messageId, Squeeze(reason), db.messages[messageId].attempts,
                                            h.text(if db.messages[messageId].lastError.Some?
                                                   then db.messages[messageId].lastError.value else "")),
               actor.actorId, db.messages[messageId].key, stamp);
      MovedShown(max, db, messageId, o.db.messages[messageId], d, o.db.reservations[d.reservationId], o.db.log);
    }
  }

  // ------------------------------------------------------------------ workers

  lemma ClaimShown(max: nat, db: Db, cfg: WorkerConfig, token: string, now: int)
    requires Inv(max, db) && AllShown(db)
    ensures AllShown(Claim(db, cfg, token, now).db)
  {
    hide Inv, AllShown;
    if Claimable(db, now) != {} {
      var id := First(Claimable(db, now)).id;
      Behind(max, db, id);
      var m := Leased(db.messages[id], cfg.lease, token, now);
      var d := db.dispatches[m.aggregateId];
      ShownOf(db, id);
      MovedShown(max, db, id, m, d, db.reservations[d.reservationId], db.log);
      assert Claim(db, cfg, token, now).db == Moved(db, id, m, d, db.reservations[d.reservationId], db.log);
    }
  }

  lemma ShownOf(db: Db, x: string)
    requires AllShown(db) && x in db.messages
    ensures db.messages[x].aggregateId in db.dispatches
    ensures Shown(db.log, x, db.messages[x], db.dispatches[db.messages[x].aggregateId].adapterReference)
  {
  }

  lemma SuccessShown(h: Hashes, max: nat, db: Db, cfg: WorkerConfig, c: ClaimedMessage, reference: string, stamp: Stamp)
    requires Inv(max, db) && AllShown(db) && Faithful(db, c)
    ensures AllShown(Committed(RecordSuccess(h, db, cfg, c, reference, stamp), db))
  {
    hide Inv, AllShown, LogEvent;
    Behind(max, db, c.id);
    if HoldsLease(db, c) {
      var b := RecordSuccess(h, db, cfg, c, reference, stamp).db;
      var d, m := b.dispatches[c.aggregateId], b.messages[c.id];
      var fact := DispatchPublished(c.aggregateId, c.id, reference, m.attempts);
      LoggedEvent(h, db.log, fact, SystemActor(cfg), c.key, stamp);
      LogGrows(h, db.log, fact, SystemActor(cfg), c.key, stamp);
      assert PublishedBy(b.log[|db.log|], c.id, m, reference);
      MovedShown(max, db, c.id, m, d, b.reservations[d.reservationId], b.log);
      assert b == Moved(db, c.id, m, d, b.reservations[d.reservationId], b.log);
    }
  }

  lemma FailureShown(h: Hashes, max: nat, db: Db, cfg: WorkerConfig, c: ClaimedMessage, error: string, stamp: Stamp)
    requires Inv(max, db) && AllShown(db) && Faithful(db, c) && cfg.maxAttempts == max
    ensures AllShown(RecordFailure(h, db, cfg, c, error, stamp).db)
  {
    hide Inv, AllShown, LogEvent, RetryDelay, RecordFailure;
    Behind(max, db, c.id);
    if HoldsLease(db, c) {
      var m := AfterFailure(db.messages[c.id], cfg, error, stamp.at);
      var d := db.dispatches[c.aggregateId];
      var r := db.reservations[d.reservationId];
      ShownOf(db, c.id);
      if db.messages[c.id].attempts < max {
        RetryIsMove(h, db, cfg, c, error, stamp);
        MovedShown(max, db, c.id, m, d, r, db.log);
      } else {
        RejectionIsMove(h, db, cfg, c, error, stamp);
        var fact := DeliveryFailed(c.aggregateId, c.id, db.messages[c.id].attempts, ErrorText(error));
        var log := LogEvent(h, db.log, fact, SystemActor(cfg), c.key, stamp);
        LoggedEvent(h, db.log, fact, SystemActor(cfg), c.key, stamp);
        LogGrows(h, db.log, fact, SystemActor(cfg), c.key, stamp);
        assert FailedBy(log[|db.log|], c.id, m, d.adapterReference);
        MovedShown(max, db, c.id, m, d.(status := Rejected), r.(status := Cancelled), log);
      }
    } else {
      FailureSettlements(h, db, cfg, c, error, stamp);
    }
  }

  lemma NextShown(h: Hashes, max: nat, w: World, step: Step, stamp: Stamp)
    requires WorldInv(h, max, w) && max >= 1 && Enabled(max, w, step, stamp) && AllShown(w.db)
    ensures AllShown(Next(h, max, w, step, stamp).db)
  {
    hide WorldInv, DbInv, TablesOk, Inv, Perform, Claim, RecordSuccess, RecordFailure, FlightsOk, Fenced, LocksOk,
      FailuresOk, Reached, AllShown;
    Parts(h, max, w);
    DbHasInv(h, max, w.db);
    match step
    case Api(c) => CommandShown(h, max, w.db, c, stamp);
    case ClaimStep(cfg, token) =>
      ClaimShown(max, w.db, cfg, token, stamp.at);
      ClaimNone(w.db, cfg, token, stamp.at);
    case PublishStep(_, _, _) =>
    case FinalizeStep(token) =>
      TablesHave(max, w, w.clock);
      FlightFaithful(max, w, token);
      var f := w.flights[token];
      if f.response.value.Ack? {
        SuccessShown(h, max, w.db, f.cfg, f.claimed, f.response.value.reference, stamp);
      } else {
        FailureShown(h, max, w.db, f.cfg, f.claimed, f.response.value.error, stamp);
      }
    case CrashStep(_) =>
  }

  lemma {:induction false} ShownRun(h: Hashes, max: nat, w: World, run: seq<Event>)
    requires WorldInv(h, max, w) && max >= 1 && Legal(h, max, w, run) && AllShown(w.db)
    ensures AllShown(EndOf(h, max, w, run).db)
    decreases |run|
  {
    hide WorldInv, Enabled, Next, AllShown;
    if run != [] {
      NextKeeps(h, max, w, run[0].step, run[0].stamp);
      NextShown(h, max, w, run[0].step, run[0].stamp);
      ShownRun(h, max, Next(h, max, w, run[0].step, run[0].stamp), run[1..]);
    }
  }

  /** In every reachable state a published message shows the reference, the time and the
      attempt of a `dispatch.published` event, and its dispatch the same reference; a dead one
      the error and the attempts of a `dispatch.delivery_failed` event; and a dispatch that
      waits, or was rejected, points to its message in the outbox. */
  lemma DeliveriesShown(h: Hashes, max: nat, w: World, x: string)
    requires max >= 1 && Reachable(h, max, w) && x in w.db.messages
    ensures w.db.messages[x].aggregateId in w.db.dispatches
    ensures Shown(w.db.log, x, w.db.messages[x], w.db.dispatches[w.db.messages[x].aggregateId].adapterReference)
  {
    hide WorldInv, Legal, EndOf, Shown;
    var clock, run :| Legal(h, max, Start(clock), run) && w == EndOf(h, max, Start(clock), run);
    StartOk(h, max, clock);
    ShownRun(h, max, Start(clock), run);
  }

  // ------------------------------------------------------------ what is stamped

  /** Whatever changes a message also stamps it with the time of the change. */
  lemma ChangesAreStamped(h: Hashes, max: nat, w: World, step: Step, stamp: Stamp, x: string)
    requires max >= 1 && Reachable(h, max, w) && Enabled(max, w, step, stamp) && x in w.db.messages
    ensures var messages' := Next(h, max, w, step, stamp).db.messages;
            x in messages' && (messages'[x] == w.db.messages[x] || messages'[x].updatedAt == stamp.at)
  {
    hide Reachable, WorldInv, Next, Enabled, Claims, ErrorText, RetryDelay;
    ReachableInv(h, max, w);
    RowsNext(h, max, w, step, stamp);
  }

  /** What a failed delivery leaves behind while its lease is held: the beginning of the error,
      no lock, and either a dead message or one that waits for min(base * 2^(attempts - 1),
      max) seconds. */
  lemma FailureLeaves(h: Hashes, max: nat, w: World, token: string, stamp: Stamp)
    requires max >= 1 && Reachable(h, max, w) && Enabled(max, w, FinalizeStep(token), stamp)
    requires w.flights[token].response.value.Raise? && w.flights[token].claimed.id in w.db.messages
    requires w.db.messages[w.flights[token].claimed.id].lockedBy == Some(token)
    ensures var f := w.flights[token];
            var x, error := f.claimed.id, f.response.value.error;
            var m, messages' := w.db.messages[x], Next(h, max, w, FinalizeStep(token), stamp).db.messages;
            && x in messages'
            && var m' := messages'[x];
               && m'.attempts == m.attempts && m'.lockedBy.None? && m'.leaseExpiresAt.None?
               && m'.lastError.Some? && m'.lastError.value <= error
               && |m'.lastError.value| == (if |error| < 2000 then |error| else 2000)
               && (if m.attempts >= max then m'.status == Dead && m'.availableAt == m.availableAt
                   else
                     && m'.status == Pending && m.attempts >= 1
                     && var delay := f.cfg.baseRetry * Pow2(m.attempts - 1);
                        m'.availableAt
                        == stamp.at + (if delay < f.cfg.maxRetry then delay else f.cfg.maxRetry) * 1_000_000)
  {
    hide Reachable, WorldInv, DbInv, TablesOk, Inv, Finalized, FlightsOk, Fenced, LocksOk, FailuresOk, Reached,
      EvidenceInv, LogInv, FreshEvent;
    ReachableInv(h, max, w);
    Parts(h, max, w);
    DbHasInv(h, max, w.db);
    TablesHave(max, w, w.clock);
    FlightFaithful(max, w, token);
    FinalizedMessages(h, max, w.db, w.flights[token], stamp);
    Behind(max, w.db, w.flights[token].claimed.id);
  }
}
