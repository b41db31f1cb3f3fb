/** What holds of the machine in every reachable state. */
module MachineInvariants {
  import opened Wrappers
  import opened Text
  import opened Decimals
  import opened Signals
  import opened Domain
  import opened Outbox
  import opened Coordination
  import opened Invariants
  import opened Preservation
  import opened CommandPreservation
  import opened Replay
  import opened Accounting
  import opened Evidence
  import opened Machine

  type Flights = map<string, Flight>

  /** A claim in flight agrees with its message, and if it no longer holds the message
      then its lease has run out. */
  predicate FlightOk(max: nat, token: string, f: Flight, messages: Messages, clock: int) {
    && f.cfg.Accepted() && f.cfg.maxAttempts == max
    && f.claimed.token == token
    && f.claimed.id in messages
    && f.claimed.aggregateId == messages[f.claimed.id].aggregateId
    && f.claimed.key == messages[f.claimed.id].key
    && f.claimed.payload == messages[f.claimed.id].payload
    && f.leaseUntil == f.claimedAt + f.cfg.lease * SECOND
    && f.claimedAt <= clock
    && (messages[f.claimed.id].lockedBy != Some(token) ==> f.leaseUntil <= clock)
  }

  predicate FlightsOk(max: nat, flights: Flights, messages: Messages, tokens: set<string>, claims: nat, clock: int) {
    && (forall t :: t in flights ==>
        && t in tokens && flights[t].order < claims
        && FlightOk(max, t, flights[t], messages, clock))
    && (forall t, u :: t in flights && u in flights && flights[t].order == flights[u].order ==> t == u)
  }

  /** Of two claims in flight on one message, the older had expired when the newer was
      made. */
  predicate Fenced(flights: Flights) {
    forall t, u | t in flights && u in flights && flights[t].claimed.id == flights[u].claimed.id
        && flights[t].order < flights[u].order ::
      flights[t].leaseUntil <= flights[u].claimedAt
  }

  /** A token locks one message at most, and its flight is for that message. */
  predicate LocksOk(messages: Messages, flights: Flights, tokens: set<string>) {
    && (forall x :: x in messages && messages[x].lockedBy.Some? ==>
          && messages[x].lockedBy.value in tokens
          && (messages[x].lockedBy.value in flights ==>
                && flights[messages[x].lockedBy.value].claimed.id == x
                && messages[x].leaseExpiresAt == Some(flights[messages[x].lockedBy.value].leaseUntil)))
    && (forall x, y | x in messages && y in messages && messages[x].lockedBy.Some?
        && messages[x].lockedBy == messages[y].lockedBy :: x == y)
  }

  /** Every publish that reached the destination carried the key and the signal of its
      message. */
  predicate DeliveriesOk(deliveries: seq<Delivery>, messages: Messages) {
    forall i :: 0 <= i < |deliveries| ==>
      && deliveries[i].messageId in messages
      && deliveries[i].key == messages[deliveries[i].messageId].key
      && Decode(messages[deliveries[i].messageId].payload) == Success(deliveries[i].signal)
  }

  predicate HasDelivery(deliveries: seq<Delivery>, id: string) {
    exists i :: 0 <= i < |deliveries| && deliveries[i].messageId == id
  }

  /** Acknowledged claims and published messages have reached the destination. */
  predicate Reached(messages: Messages, flights: Flights, deliveries: seq<Delivery>) {
    && (forall x :: x in messages && messages[x].status == Published ==> HasDelivery(deliveries, x))
    && (forall t :: t in flights && flights[t].response.Some? && flights[t].response.value.Ack? ==>
        HasDelivery(deliveries, flights[t].claimed.id))
  }

  /** Failures recorded since the message was queued or re-driven. */
  predicate FailureCount(max: nat, m: Message, failures: nat) {
    && failures <= m.attempts && failures <= max
    && (m.status == Processing ==> failures < m.attempts && failures < max)
  }

  predicate FailuresOk(max: nat, failures: map<string, nat>, messages: Messages) {
    && (forall x :: x in failures ==> x in messages)
    && (forall x :: x in messages ==> FailureCount(max, messages[x], if x in failures then failures[x] else 0))
  }

  /** A message being processed was available when it was claimed. */
  predicate ClockOk(messages: Messages, clock: int) {
    forall x :: x in messages && messages[x].status == Processing ==> messages[x].availableAt <= clock
  }

  ghost predicate WorldInv(h: Hashes, max: nat, w: World) {
    && Inv(max, w.db) && LogInv(h, w.db) && EvidenceInv(h, w.db)
    && FlightsOk(max, w.flights, w.db.messages, w.tokens, w.claims, w.clock)
    && Fenced(w.flights)
    && LocksOk(w.db.messages, w.flights, w.tokens)
    && DeliveriesOk(w.deliveries, w.db.messages)
    && Reached(w.db.messages, w.flights, w.deliveries)
    && FailuresOk(max, w.failures, w.db.messages)
    && ClockOk(w.db.messages, w.clock)
  }

  lemma StartOk(h: Hashes, max: nat, clock: int)
    ensures WorldInv(h, max, Start(clock))
  {
    hide Inv, LogInv;
    EmptyInv(max);
    EmptyLog(h);
  }

  lemma EmptyInv(max: nat)
    ensures Inv(max, EMPTY_DB)
  {
  }

  lemma EmptyLog(h: Hashes)
    ensures LogInv(h, EMPTY_DB)
  {
    var b := Statuses(EMPTY_DB);
    assert b.offers == map[] && b.reservations == map[] && b.dispatches == map[] && b.messages == map[]
        && b.reservationOf == map[];
  }

  // ---------------------------------------------------------------- commands

  lemma PerformKeeps(h: Hashes, max: nat, db: Db, c: Command, stamp: Stamp)
    requires Inv(max, db) && max >= 1 && Admissible(db, c)
    ensures Inv(max, Perform(h, db, c, stamp)) && Extends(db, Perform(h, db, c, stamp))
  {
    hide Inv, Extends, RegisterAsset, CreateOffer, Reserve, Issue, RecordReading, Coordination.Settle, Redrive;
    ExtendsReflexive(db);
    match c
    case RegisterCommand(cmd, actor, id, correlationId) =>
      RegisterKeeps(h, max, db, cmd, actor, id, correlationId, stamp);
    case OfferCommand(cmd, actor, id, correlationId) =>
      CreateOfferKeeps(h, max, db, cmd, actor, id, correlationId, stamp);
    case ReserveCommand(offerId, cmd, actor, key, id) => ReserveKeeps(h, max, db, offerId, cmd, actor, key, id, stamp);
    case IssueCommand(reservationId, cmd, actor, key, id, messageId) =>
      IssueKeeps(h, max, db, reservationId, cmd, actor, key, id, messageId, stamp);
    case ReadingCommand(cmd, actor, id) => RecordReadingKeeps(h, max, db, cmd, actor, id, stamp);
    case SettleCommand(reservationId, actor, key, id) => SettleKeeps(h, max, db, reservationId, actor, key, id, stamp);
    case RedriveCommand(actor, messageId, dispatchId, reason) =>
      RedriveKeeps(h, max, db, actor, messageId, dispatchId, reason, stamp);
  }

  lemma PerformAccounted(h: Hashes, max: nat, db: Db, c: Command, stamp: Stamp)
    requires Inv(max, db) && Admissible(db, c)
    ensures var after := Perform(h, db, c, stamp); after == db || exists f :: Accounted(h, db, after, f)
  {
    hide Inv, Accounted, RegisterAsset, CreateOffer, Reserve, Issue, RecordReading, Coordination.Settle, Redrive;
    match c
    case RegisterCommand(cmd, actor, id, correlationId) =>
      RegisterAccounted(h, db, cmd, actor, id, correlationId, stamp);
    case OfferCommand(cmd, actor, id, correlationId) =>
      CreateOfferAccounted(h, db, cmd, actor, id, correlationId, stamp);
    case ReserveCommand(offerId, cmd, actor, key, id) =>
      ReserveAccounted(h, max, db, offerId, cmd, actor, key, id, stamp);
    case IssueCommand(reservationId, cmd, actor, key, id, messageId) =>
      IssueAccounted(h, max, db, reservationId, cmd, actor, key, id, messageId, stamp);
    case ReadingCommand(cmd, actor, id) => RecordReadingAccounted(h, db, cmd, actor, id, stamp);
    case SettleCommand(reservationId, actor, key, id) =>
      SettleAccounted(h, max, db, reservationId, actor, key, id, stamp);
    case RedriveCommand(actor, messageId, dispatchId, reason) =>
      var r := Redrive(h, db, actor, messageId, dispatchId, reason, stamp);
      if r.Done? { RedriveAccounted(h, max, db, actor, messageId, dispatchId, reason, stamp); }
  }

  lemma PerformEvidence(h: Hashes, max: nat, db: Db, c: Command, stamp: Stamp)
    requires Inv(max, db) && max >= 1 && LogInv(h, db) && EvidenceInv(h, db) && Admissible(db, c)
    ensures EvidenceInv(h, Perform(h, db, c, stamp))
  {
    hide Inv, LogInv, EvidenceInv, Extends;
    PerformKeeps(h, max, db, c, stamp);
    if c.SettleCommand? {
      SettleEvidence(h, max, db, c.reservationId, c.actor, c.key, c.settlementId, stamp);
    } else {
      PerformSettlements(h, db, c, stamp);
      EvidenceKept(h, db, Perform(h, db, c, stamp));
    }
  }

  lemma PerformSettlements(h: Hashes, db: Db, c: Command, stamp: Stamp)
    requires Admissible(db, c) && !c.SettleCommand?
    ensures Perform(h, db, c, stamp).settlements == db.settlements
  {
    hide RegisterAsset, CreateOffer, Reserve, Issue, RecordReading, Redrive;
    match c
    case RegisterCommand(cmd, actor, id, correlationId) => CreateSettlements(h, db, c, stamp);
    case OfferCommand(cmd, actor, id, correlationId) => CreateSettlements(h, db, c, stamp);
    case ReserveCommand(offerId, cmd, actor, key, id) => CreateSettlements(h, db, c, stamp);
    case IssueCommand(reservationId, cmd, actor, key, id, messageId) =>
      IssueSettlements(h, db, reservationId, cmd, actor, key, id, messageId, stamp);
    case ReadingCommand(cmd, actor, id) => CreateSettlements(h, db, c, stamp);
    case RedriveCommand(actor, messageId, dispatchId, reason) =>
      RedriveSettlements(h, db, actor, messageId, dispatchId, reason, stamp);
  }

  lemma CreateSettlements(h: Hashes, db: Db, c: Command, stamp: Stamp)
    requires Admissible(db, c) && (c.RegisterCommand? || c.OfferCommand? || c.ReserveCommand? || c.ReadingCommand?)
    ensures Perform(h, db, c, stamp).settlements == db.settlements
  {
    hide LogEvent, Blank, Micro, ReadingWith, Issue, Redrive, Coordination.Settle;
  }

  lemma IssueSettlements(h: Hashes, db: Db, reservationId: string, cmd: DispatchCreate, actor: Actor, key: string,
                         dispatchId: string, messageId: string, stamp: Stamp)
    requires cmd.Accepted()
    ensures var o := Issue(h, db, reservationId, cmd, actor, key, dispatchId, messageId, stamp);
            o.Done? ==> o.db.settlements == db.settlements
  {
    hide LogEvent, Blank, Micro, DispatchPayload;
  }

  lemma RedriveSettlements(h: Hashes, db: Db, actor: Actor, messageId: string, dispatchId: string, reason: string,
                           stamp: Stamp)
    ensures var o := Redrive(h, db, actor, messageId, dispatchId, reason, stamp);
            o.Done? ==> o.db.settlements == db.settlements
  {
    hide LogEvent, Squeeze;
  }

  lemma PerformLog(h: Hashes, max: nat, db: Db, c: Command, stamp: Stamp)
    requires Inv(max, db) && LogInv(h, db) && Admissible(db, c)
    ensures LogInv(h, Perform(h, db, c, stamp))
  {
    hide Inv, LogInv, Accounted, Perform;
    var after := Perform(h, db, c, stamp);
    PerformAccounted(h, max, db, c, stamp);
    if after != db {
      var f :| Accounted(h, db, after, f);
      AccountedKeeps(h, db, after, f);
    }
  }

  /** Apart from a re-drive, commands leave messages alone or add an unclaimed one. */
  predicate OnlyAdds(messages: Messages, messages': Messages, now: int) {
    && (forall x :: x in messages ==> x in messages' && messages'[x] == messages[x])
    && (forall x :: x in messages' && x !in messages ==>
          && messages'[x].status == Pending && messages'[x].attempts == 0 && messages'[x].lockedBy.None?
          && messages'[x].availableAt == now && messages'[x].createdAt == now)
  }

  lemma PerformMessages(h: Hashes, db: Db, c: Command, stamp: Stamp)
    requires Admissible(db, c) && !c.RedriveCommand?
    ensures OnlyAdds(db.messages, Perform(h, db, c, stamp).messages, stamp.at)
  {
    hide LogEvent, Blank, Micro, ReadingWith, DispatchPayload, WindowReadings, Decimals.Settle, Energies, DispatchOf;
    if c.IssueCommand? {
      IssueMessages(h, db, c, stamp);
    } else {
      hide OnlyAdds;
      OnlyAddsNothing(db.messages, stamp.at);
      OtherMessages(h, db, c, stamp);
    }
  }

  lemma OnlyAddsNothing(messages: Messages, now: int)
    ensures OnlyAdds(messages, messages, now)
  {
  }

  lemma OtherMessages(h: Hashes, db: Db, c: Command, stamp: Stamp)
    requires Admissible(db, c) && !c.RedriveCommand? && !c.IssueCommand?
    ensures Perform(h, db, c, stamp).messages == db.messages
  {
    hide RegisterAsset, CreateOffer, Reserve, Issue, RecordReading, Coordination.Settle, Redrive;
    match c
    case RegisterCommand(cmd, actor, id, correlationId) =>
      RegisterMessages(h, db, cmd, actor, id, correlationId, stamp);
    case OfferCommand(cmd, actor, id, correlationId) => OfferMessages(h, db, cmd, actor, id, correlationId, stamp);
    case ReserveCommand(offerId, cmd, actor, key, id) => ReserveMessages(h, db, offerId, cmd, actor, key, id, stamp);
    case ReadingCommand(cmd, actor, id) => ReadingMessages(h, db, cmd, actor, id, stamp);
    case SettleCommand(reservationId, actor, key, id) => SettleMessages(h, db, reservationId, actor, key, id, stamp);
  }

  lemma RegisterMessages(h: Hashes, db: Db, cmd: AssetCreate, actor: Actor, id: string, correlationId: string,
                         stamp: Stamp)
    requires cmd.Accepted()
    ensures Committed(RegisterAsset(h, db, cmd, actor, id, correlationId, stamp), db).messages == db.messages
  {
    hide LogEvent, Micro;
  }

  lemma OfferMessages(h: Hashes, db: Db, cmd: OfferCreate, actor: Actor, id: string, correlationId: string,
                      stamp: Stamp)
    requires cmd.Accepted()
    ensures Committed(CreateOffer(h, db, cmd, actor, id, correlationId, stamp), db).messages == db.messages
  {
    hide LogEvent, Micro;
  }

  lemma ReserveMessages(h: Hashes, db: Db, offerId: string, cmd: ReservationCreate, actor: Actor, key: string,
                        id: string, stamp: Stamp)
    requires cmd.Accepted()
    ensures Committed(Reserve(h, db, offerId, cmd, actor, key, id, stamp), db).messages == db.messages
  {
    hide LogEvent, Micro, IdempotentResource;
  }

  lemma ReadingMessages(h: Hashes, db: Db, cmd: MeterReadingCreate, actor: Actor, id: string, stamp: Stamp)
    requires cmd.Accepted()
    ensures Committed(RecordReading(h, db, cmd, actor, id, stamp), db).messages == db.messages
  {
    hide LogEvent, Micro, ReadingWith;
  }

  lemma SettleMessages(h: Hashes, db: Db, reservationId: string, actor: Actor, key: string, settlementId: string,
                       stamp: Stamp)
    ensures Committed(Coordination.Settle(h, db, reservationId, actor, key, settlementId, stamp), db).messages
            == db.messages
  {
    hide LogEvent, IdempotentResource, WindowReadings, Decimals.Settle, Energies, DispatchOf;
  }

  lemma IssueMessages(h: Hashes, db: Db, c: Command, stamp: Stamp)
    requires Admissible(db, c) && c.IssueCommand?
    ensures OnlyAdds(db.messages, Perform(h, db, c, stamp).messages, stamp.at)
  {
    hide LogEvent, Micro, DispatchPayload, OnlyAdds, IdempotentResource, IssueNew;
    OnlyAddsNothing(db.messages, stamp.at);
    var hash := h.request(DispatchRequest(c.reservationId, c.dispatch.target, c.dispatch.startsAt, c.dispatch.endsAt,
                                          c.actor.actorId));
    QueuedMessages(h, db, c.reservationId, c.dispatch, c.actor, c.key, hash, c.dispatchId, c.messageId, stamp);
  }

  lemma QueuedMessages(h: Hashes, db: Db, reservationId: string, cmd: DispatchCreate, actor: Actor, key: string,
                       requestHash: string, dispatchId: string, messageId: string, stamp: Stamp)
    requires cmd.Accepted() && messageId !in db.messages
    ensures var o := IssueNew(h, db, reservationId, cmd, actor, key, requestHash, dispatchId, messageId, stamp);
            o.Done? ==> OnlyAdds(db.messages, o.db.messages, stamp.at)
  {
    hide LogEvent, Blank, Micro, DispatchPayload, OnlyAdds;
    var o := IssueNew(h, db, reservationId, cmd, actor, key, requestHash, dispatchId, messageId, stamp);
    if o.Done? {
      var m := o.db.messages[messageId];
      assert o.db.messages == db.messages[messageId := m];
      OnlyAddsOne(db.messages, messageId, m, stamp.at);
    }
  }

  lemma OnlyAddsOne(messages: Messages, id: string, m: Message, now: int)
    requires id !in messages && m.status == Pending && m.attempts == 0 && m.lockedBy.None? && m.availableAt == now
    requires m.createdAt == now
    ensures OnlyAdds(messages, messages[id := m], now)
  {
  }

  // ------------------------------------------------- the machine's own tables

  ghost predicate TablesOk(max: nat, messages: Messages, flights: Flights, tokens: set<string>, claims: nat,
                           deliveries: seq<Delivery>, failures: map<string, nat>, clock: int)
  {
    && FlightsOk(max, flights, messages, tokens, claims, clock) && Fenced(flights) && LocksOk(messages, flights, tokens)
    && DeliveriesOk(deliveries, messages) && Reached(messages, flights, deliveries)
    && FailuresOk(max, failures, messages)
    && ClockOk(messages, clock)
  }

  lemma TablesAdd(max: nat, messages: Messages, messages': Messages, flights: Flights, tokens: set<string>, claims: nat,
                  deliveries: seq<Delivery>, failures: map<string, nat>, clock: int, now: int)
    requires TablesOk(max, messages, flights, tokens, claims, deliveries, failures, clock)
    requires OnlyAdds(messages, messages', now) && now >= clock
    ensures TablesOk(max, messages', flights, tokens, claims, deliveries, failures, now)
  {
    hide OnlyAdds, FlightsOk, Fenced, LocksOk, DeliveriesOk, Reached, FailuresOk, ClockOk;
    FlightsAdd(max, messages, messages', flights, tokens, claims, clock, now);
    LedgersAdd(max, messages, messages', flights, deliveries, failures, clock, now);
  }

  lemma FlightsAdd(max: nat, messages: Messages, messages': Messages, flights: Flights, tokens: set<string>,
                   claims: nat, clock: int, now: int)
    requires OnlyAdds(messages, messages', now) && now >= clock
    requires FlightsOk(max, flights, messages, tokens, claims, clock) && LocksOk(messages, flights, tokens)
    ensures FlightsOk(max, flights, messages', tokens, claims, now) && LocksOk(messages', flights, tokens)
  {
    assert FlightsOk(max, flights, messages', tokens, claims, now) by { hide LocksOk; }
    hide FlightsOk, FlightOk;
  }

  lemma LedgersAdd(max: nat, messages: Messages, messages': Messages, flights: Flights, deliveries: seq<Delivery>,
                   failures: map<string, nat>, clock: int, now: int)
    requires OnlyAdds(messages, messages', now) && now >= clock
    requires DeliveriesOk(deliveries, messages) && Reached(messages, flights, deliveries)
    requires FailuresOk(max, failures, messages) && ClockOk(messages, clock)
    ensures DeliveriesOk(deliveries, messages') && Reached(messages', flights, deliveries)
    ensures FailuresOk(max, failures, messages') && ClockOk(messages', now)
  {
    hide Decode, HasDelivery;
    assert DeliveriesOk(deliveries, messages') by { hide Reached, FailuresOk, ClockOk; }
    assert Reached(messages', flights, deliveries) by { hide DeliveriesOk, FailuresOk, ClockOk; }
    assert FailuresOk(max, failures, messages') by { hide DeliveriesOk, Reached, ClockOk; }
  }

  lemma TablesTick(max: nat, messages: Messages, flights: Flights, tokens: set<string>, claims: nat,
                   deliveries: seq<Delivery>, failures: map<string, nat>, clock: int, now: int, tokens': set<string>)
    requires TablesOk(max, messages, flights, tokens, claims, deliveries, failures, clock)
    requires now >= clock && tokens <= tokens'
    ensures TablesOk(max, messages, flights, tokens', claims, deliveries, failures, now)
  {
    hide Fenced, DeliveriesOk, Reached, FailuresOk;
  }

  lemma TablesDrop(max: nat, messages: Messages, flights: Flights, tokens: set<string>, claims: nat,
                   deliveries: seq<Delivery>, failures: map<string, nat>, clock: int, token: string)
    requires TablesOk(max, messages, flights, tokens, claims, deliveries, failures, clock)
    ensures TablesOk(max, messages, flights - {token}, tokens, claims, deliveries, failures, clock)
  {
    hide DeliveriesOk, FailuresOk, ClockOk, FlightOk;
  }

  /** A publisher call returns, and perhaps reached the destination. */
  lemma TablesPublish(max: nat, messages: Messages, flights: Flights, tokens: set<string>, claims: nat,
                      deliveries: seq<Delivery>, failures: map<string, nat>, clock: int, token: string,
                          response: Response, reached: bool)
    requires TablesOk(max, messages, flights, tokens, claims, deliveries, failures, clock)
    requires token in flights && (response.Ack? ==> reached)
    requires reached ==> Decode(flights[token].claimed.payload).Success?
    ensures
      var f := flights[token];
      TablesOk(max, messages, flights[token := f.(response := Some(response))], tokens, claims,
               if reached then deliveries + [Delivery(f.claimed.key, Decode(f.claimed.payload).value, f.claimed.id)]
                   else deliveries,
               failures, clock)
  {
    var f := flights[token];
    var flights' := flights[token := f.(response := Some(response))];
    var deliveries' := if reached then deliveries
        + [Delivery(f.claimed.key, Decode(f.claimed.payload).value, f.claimed.id)] else deliveries;
    PublishFlights(max, messages, flights, tokens, claims, clock, token, response);
    assert FlightOk(max, token, f, messages, clock);
    hide FlightsOk, LocksOk, Fenced, FailuresOk, ClockOk, Decode;
    assert DeliveriesOk(deliveries', messages) by { hide Reached; }
    hide DeliveriesOk, FlightOk;
    PublishReached(messages, flights, deliveries, deliveries', token, response);
    hide Reached;
  }

  lemma PublishFlights(max: nat, messages: Messages, flights: Flights, tokens: set<string>, claims: nat, clock: int,
                       token: string, response: Response)
    requires FlightsOk(max, flights, messages, tokens, claims, clock) && Fenced(flights)
    requires LocksOk(messages, flights, tokens)
    requires token in flights
    ensures var flights' := flights[token := flights[token].(response := Some(response))];
            FlightsOk(max, flights', messages, tokens, claims, clock) && Fenced(flights')
                && LocksOk(messages, flights', tokens)
  {
    var flights' := flights[token := flights[token].(response := Some(response))];
    assert FlightsOk(max, flights', messages, tokens, claims, clock) by { hide LocksOk, Fenced; }
    hide FlightsOk, FlightOk;
  }

  lemma PublishReached(messages: Messages, flights: Flights, deliveries: seq<Delivery>, deliveries': seq<Delivery>,
                       token: string, response: Response)
    requires Reached(messages, flights, deliveries) && token in flights && deliveries <= deliveries'
    requires response.Ack? ==>
              && deliveries < deliveries'
              && deliveries'[|deliveries|].messageId == flights[token].claimed.id
    ensures Reached(messages, flights[token := flights[token].(response := Some(response))], deliveries')
  {
    HasDeliveryGrows(deliveries, deliveries');
    if response.Ack? { assert HasDelivery(deliveries', flights[token].claimed.id); }
    hide HasDelivery;
  }

  lemma HasDeliveryGrows(deliveries: seq<Delivery>, deliveries': seq<Delivery>)
    requires deliveries <= deliveries'
    ensures forall x :: HasDelivery(deliveries, x) ==> HasDelivery(deliveries', x)
  {
    forall x | HasDelivery(deliveries, x) ensures HasDelivery(deliveries', x) {
      var i :| 0 <= i < |deliveries| && deliveries[i].messageId == x;
      assert deliveries'[i].messageId == x;
    }
  }

  /** A claim: the message was pending, or the lease of its last claim had run out. */
  lemma TablesClaim(max: nat, messages: Messages, id: string, cfg: WorkerConfig, token: string, now: int,
                    flights: Flights, tokens: set<string>, claims: nat, deliveries: seq<Delivery>,
                    failures: map<string, nat>, clock: int)
    requires TablesOk(max, messages, flights, tokens, claims, deliveries, failures, clock) && MessagesOk(max, messages)
    requires id in messages && IsClaimable(messages[id], now) && now >= clock && token !in tokens
    requires cfg.Accepted() && cfg.maxAttempts == max
    ensures
      var m := Leased(messages[id], cfg.lease, token, now);
      var claimed := ClaimedMessage(id, m.aggregateId, m.key, m.payload, m.attempts, token);
      var f := Flight(cfg, claimed, now, now + cfg.lease * SECOND, claims, None);
      TablesOk(max, messages[id := m], flights[token := f], tokens + {token}, claims + 1, deliveries, failures, now)
  {
    var m := Leased(messages[id], cfg.lease, token, now);
    var claimed := ClaimedMessage(id, m.aggregateId, m.key, m.payload, m.attempts, token);
    var f := Flight(cfg, claimed, now, now + cfg.lease * SECOND, claims, None);
    var messages', flights' := messages[id := m], flights[token := f];
    hide HasDelivery, Decode;
    ExpiredBy(max, messages, id, now, flights, tokens, claims, clock);
    assert LeaseColumns(messages[id]) && WithinBudget(max, messages[id]) by { hide TablesOk; }
    hide MessagesOk;
    assert Fenced(flights') by {
      hide LocksOk, DeliveriesOk, Reached, FailuresOk, ClockOk, FlightOk, Fenced;
      ClaimFenced(max, messages, id, token, f, flights, tokens, claims, clock);
    }
    assert LocksOk(messages', flights', tokens + {token}) by {
      hide DeliveriesOk, Reached, FailuresOk, ClockOk, Fenced, LocksOk;
      ClaimLocks(messages, id, m, token, f, flights, tokens);
    }
    ClaimFlights(max, messages, id, m, token, f, now, flights, tokens, claims, clock);
    hide FlightsOk, LocksOk, Fenced, DeliveriesOk, Reached, FailuresOk, ClockOk;
    ClaimLedgers(max, messages, id, m, token, f, flights, deliveries, failures, clock, now);
  }

  lemma ClaimLedgers(max: nat, messages: Messages, id: string, m: Message, token: string, f: Flight, flights: Flights,
                     deliveries: seq<Delivery>, failures: map<string, nat>, clock: int, now: int)
    requires DeliveriesOk(deliveries, messages) && Reached(messages, flights, deliveries)
    requires FailuresOk(max, failures, messages) && ClockOk(messages, clock) && now >= clock
    requires id in messages && SameMessage(messages[id], m) && m.status == Processing && f.response.None?
    requires m.attempts == messages[id].attempts + 1 && m.availableAt <= now
    requires messages[id].status == Pending || messages[id].status == Processing
    requires messages[id].status == Pending ==> messages[id].attempts < max
    ensures DeliveriesOk(deliveries, messages[id := m]) && Reached(messages[id := m], flights[token := f], deliveries)
    ensures FailuresOk(max, failures, messages[id := m]) && ClockOk(messages[id := m], now)
  {
    var messages' := messages[id := m];
    hide HasDelivery, Decode;
    assert DeliveriesOk(deliveries, messages') by { hide Reached, FailuresOk, ClockOk; }
    assert Reached(messages', flights[token := f], deliveries) by { hide DeliveriesOk, FailuresOk, ClockOk; }
    assert FailuresOk(max, failures, messages') by { hide DeliveriesOk, Reached, ClockOk; }
  }

  lemma ClaimFenced(max: nat, messages: Messages, id: string, token: string, f: Flight, flights: Flights,
                    tokens: set<string>, claims: nat, clock: int)
    requires FlightsOk(max, flights, messages, tokens, claims, clock) && Fenced(flights)
    requires f.claimed.id == id && f.order == claims && token !in tokens
    requires forall t :: t in flights && flights[t].claimed.id == id ==> flights[t].leaseUntil <= f.claimedAt
    ensures Fenced(flights[token := f])
  {
    hide FlightOk;
  }

  lemma ClaimLocks(messages: Messages, id: string, m: Message, token: string, f: Flight, flights: Flights,
                   tokens: set<string>)
    requires LocksOk(messages, flights, tokens) && token !in tokens
    requires f.claimed.id == id && m.lockedBy == Some(token) && m.leaseExpiresAt == Some(f.leaseUntil)
    ensures LocksOk(messages[id := m], flights[token := f], tokens + {token})
  {
  }

  /** Whoever still flies for a claimable message has run out of lease. */
  lemma ExpiredBy(max: nat, messages: Messages, id: string, now: int, flights: Flights, tokens: set<string>,
                  claims: nat, clock: int)
    requires FlightsOk(max, flights, messages, tokens, claims, clock) && LocksOk(messages, flights, tokens)
    requires MessagesOk(max, messages)
    requires id in messages && IsClaimable(messages[id], now) && now >= clock
    ensures forall t :: t in flights && flights[t].claimed.id == id ==> flights[t].leaseUntil <= now
  {
    assert LeaseColumns(messages[id]);
    hide MessagesOk;
    forall t | t in flights && flights[t].claimed.id == id ensures flights[t].leaseUntil <= now {
      assert FlightOk(max, t, flights[t], messages, clock);
    }
  }

  lemma ClaimFlights(max: nat, messages: Messages, id: string, m: Message, token: string, f: Flight, now: int,
                     flights: Flights, tokens: set<string>, claims: nat, clock: int)
    requires FlightsOk(max, flights, messages, tokens, claims, clock)
    requires id in messages && SameMessage(messages[id], m) && m.lockedBy == Some(token) && token !in tokens
    requires now >= clock
    requires f.order == claims && FlightOk(max, token, f, messages[id := m], now)
    requires forall t :: t in flights && flights[t].claimed.id == id ==> flights[t].leaseUntil <= now
    ensures FlightsOk(max, flights[token := f], messages[id := m], tokens + {token}, claims + 1, now)
  {
    forall t | t in flights ensures FlightOk(max, t, flights[t], messages[id := m], now) {
      assert FlightOk(max, t, flights[t], messages, clock);
    }
  }

  /** A message is released: by the claim that held it, or by a re-drive of a dead one. */
  lemma TablesRelease(max: nat, messages: Messages, id: string, m: Message, flights: Flights, flights': Flights,
                      tokens: set<string>, claims: nat, deliveries: seq<Delivery>, failures: map<string, nat>,
                          failures': map<string, nat>, clock: int)
    requires TablesOk(max, messages, flights, tokens, claims, deliveries, failures, clock)
    requires id in messages && SameMessage(messages[id], m) && m.lockedBy.None? && m.status != Processing
    requires forall t :: t in flights' ==> t in flights && flights'[t] == flights[t] && messages[id].lockedBy != Some(t)
    requires m.status == Published ==> HasDelivery(deliveries, id)
    requires FailuresOk(max, failures', messages[id := m])
    ensures TablesOk(max, messages[id := m], flights', tokens, claims, deliveries, failures', clock)
  {
    var messages' := messages[id := m];
    ReleaseFlights(max, messages, id, m, flights, flights', tokens, claims, clock);
    hide FlightsOk, Fenced, HasDelivery, Decode, FailuresOk;
    assert LocksOk(messages, flights, tokens);
    assert DeliveriesOk(deliveries, messages') by { hide LocksOk, Reached, ClockOk; }
    assert ClockOk(messages', clock) by { hide LocksOk, DeliveriesOk, Reached; }
    assert Reached(messages', flights', deliveries) by { hide LocksOk, DeliveriesOk, ClockOk; }
    hide LocksOk, DeliveriesOk, Reached, ClockOk;
    ReleaseLocks(messages, id, m, flights, flights', tokens);
  }

  lemma ReleaseLocks(messages: Messages, id: string, m: Message, flights: Flights, flights': Flights,
                     tokens: set<string>)
    requires LocksOk(messages, flights, tokens) && id in messages && m.lockedBy.None?
    requires forall t :: t in flights' ==> t in flights && flights'[t] == flights[t]
    ensures LocksOk(messages[id := m], flights', tokens)
  {
  }

  lemma ReleaseFlights(max: nat, messages: Messages, id: string, m: Message, flights: Flights, flights': Flights,
                       tokens: set<string>, claims: nat, clock: int)
    requires FlightsOk(max, flights, messages, tokens, claims, clock) && Fenced(flights)
    requires id in messages && SameMessage(messages[id], m)
    requires forall t :: t in flights' ==> t in flights && flights'[t] == flights[t] && messages[id].lockedBy != Some(t)
    ensures FlightsOk(max, flights', messages[id := m], tokens, claims, clock) && Fenced(flights')
  {
    var messages' := messages[id := m];
    forall t | t in flights' ensures FlightOk(max, t, flights'[t], messages', clock) {
      assert FlightOk(max, t, flights[t], messages, clock);
    }
    hide FlightOk;
  }

  lemma FailureCounted(max: nat, messages: Messages, id: string, m: Message, failures: map<string, nat>, count: nat)
    requires FailuresOk(max, failures, messages) && id in messages && FailureCount(max, m, count)
    ensures FailuresOk(max, failures[id := count], messages[id := m])
    ensures (if id in failures then failures[id] else 0) == count ==> FailuresOk(max, failures, messages[id := m])
  {
  }
}
