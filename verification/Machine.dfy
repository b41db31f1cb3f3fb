/** The whole platform as one machine: API commands, any number of outbox workers, the
    external destination, crashes and recovery operators interleave over one database.
    Each transaction is one step. */
module Machine {
  import opened Wrappers
  import opened Signals
  import opened Domain
  import opened Outbox
  import opened Coordination

  /** What a publisher call gives back: a reference, or an exception. */
  datatype Response = Ack(reference: string) | Raise(error: string)

  /** A worker between claim and finalization. `order` numbers claims. */
  datatype Flight = Flight(
    cfg: WorkerConfig, claimed: ClaimedMessage, claimedAt: int, leaseUntil: int, order: nat, response: Option<Response>)

  /** A publish that reached the destination. */
  datatype Delivery = Delivery(key: string, signal: DispatchSignal, messageId: string)

  /** The database, a shared clock, and what no table shows: claims in flight, tokens
      ever drawn, publishes that reached the destination, the number of claims, and the
      failures recorded for a message since it was queued or re-driven. */
  datatype World = World(
    db: Db,
    clock: int,
    flights: map<string, Flight>,
    tokens: set<string>,
    deliveries: seq<Delivery>,
    claims: nat,
    failures: map<string, nat>)

  function Start(clock: int): World { World(EMPTY_DB, clock, map[], {}, [], 0, map[]) }

  datatype Command =
    | RegisterCommand(asset: AssetCreate, actor: Actor, assetId: string, correlationId: string)
    | OfferCommand(offer: OfferCreate, actor: Actor, newOfferId: string, correlationId: string)
    | ReserveCommand(offerId: string, reservation: ReservationCreate, actor: Actor, key: string,
                     newReservationId: string)
    | IssueCommand(reservationId: string, dispatch: DispatchCreate, actor: Actor, key: string, dispatchId: string,
                   messageId: string)
    | ReadingCommand(reading: MeterReadingCreate, actor: Actor, readingId: string)
    | SettleCommand(reservationId: string, actor: Actor, key: string, settlementId: string)
    | RedriveCommand(actor: Actor, messageId: string, dispatchId: string, reason: string)

  datatype Step =
    | Api(command: Command)
    | ClaimStep(cfg: WorkerConfig, token: string)
    | PublishStep(token: string, response: Response, reached: bool)
    | FinalizeStep(token: string)
    | CrashStep(token: string)

  /** Schema validation has accepted the command, and new ids name no row yet. */
  predicate Admissible(db: Db, c: Command) {
    match c
    case RegisterCommand(cmd, _, id, _) => cmd.Accepted() && id !in db.assets
    case OfferCommand(cmd, _, id, _) => cmd.Accepted() && id !in db.offers
    case ReserveCommand(_, cmd, _, _, id) => cmd.Accepted() && id !in db.reservations
    case IssueCommand(_, cmd, _, _, id, messageId) =>
      cmd.Accepted() && id !in db.dispatches && messageId !in db.messages
    case ReadingCommand(cmd, _, id) => cmd.Accepted() && id !in db.readings
    case SettleCommand(_, _, _, id) => id !in db.settlements
    case RedriveCommand(_, _, _, _) => true
  }

  function Perform(h: Hashes, db: Db, c: Command, stamp: Stamp): Db
    requires Admissible(db, c)
  {
    match c
    case RegisterCommand(cmd, actor, id, correlationId) =>
      Committed(RegisterAsset(h, db, cmd, actor, id, correlationId, stamp), db)
    case OfferCommand(cmd, actor, id, correlationId) =>
      Committed(CreateOffer(h, db, cmd, actor, id, correlationId, stamp), db)
    case ReserveCommand(offerId, cmd, actor, key, id) =>
      Committed(Reserve(h, db, offerId, cmd, actor, key, id, stamp), db)
    case IssueCommand(reservationId, cmd, actor, key, id, messageId) =>
      Committed(Issue(h, db, reservationId, cmd, actor, key, id, messageId, stamp), db)
    case ReadingCommand(cmd, actor, id) => Committed(RecordReading(h, db, cmd, actor, id, stamp), db)
    case SettleCommand(reservationId, actor, key, id) =>
      Committed(Settle(h, db, reservationId, actor, key, id, stamp), db)
    case RedriveCommand(actor, messageId, dispatchId, reason) =>
      Committed(Redrive(h, db, actor, messageId, dispatchId, reason, stamp), db)
  }

  /** Finalization of a claim with the publisher's response. */
  function Finalized(h: Hashes, db: Db, f: Flight, stamp: Stamp): Db
    requires f.response.Some?
  {
    match f.response.value
    case Ack(reference) => Committed(RecordSuccess(h, db, f.cfg, f.claimed, reference, stamp), db)
    case Raise(error) => Committed(RecordFailure(h, db, f.cfg, f.claimed, error, stamp), db)
  }

  /** When a step may happen. Time does not run backwards, ids and tokens are fresh, and
      all workers share `max`. A publisher that acknowledges has reached the destination;
      a payload that cannot be decoded raises before anything is sent. */
  predicate Enabled(max: nat, w: World, step: Step, stamp: Stamp) {
    && stamp.at >= w.clock && FreshEvent(w.db, stamp.eventId)
    && match step
       case Api(c) => Admissible(w.db, c)
       case ClaimStep(cfg, token) => cfg.Accepted() && cfg.maxAttempts == max && token !in w.tokens
       case PublishStep(token, response, reached) =>
         && token in w.flights && w.flights[token].response.None?
         && (response.Ack? ==> reached)
         && (Decode(w.flights[token].claimed.payload).Failure? ==> response.Raise? && !reached)
       case FinalizeStep(token) => token in w.flights && w.flights[token].response.Some?
       case CrashStep(token) => token in w.flights
  }

  function FailuresOf(w: World, id: string): nat { if id in w.failures then w.failures[id] else 0 }

  function Next(h: Hashes, max: nat, w: World, step: Step, stamp: Stamp): World
    requires Enabled(max, w, step, stamp)
  {
    var now := stamp.at;
    match step
    case Api(c) =>
      var db := Perform(h, w.db, c, stamp);
      w.(db := db, clock := now,
         failures := if c.RedriveCommand? && db != w.db then w.failures[c.messageId := 0] else w.failures)
    case ClaimStep(cfg, token) =>
      var r := Claim(w.db, cfg, token, now);
      if r.claimed.None? then w.(clock := now, tokens := w.tokens + {token})
      else
        var flight := Flight(cfg, r.claimed.value, now, now + cfg.lease * SECOND, w.claims, None);
        w.(db := r.db, clock := now, flights := w.flights[token := flight], tokens := w.tokens + {token},
           claims := w.claims + 1)
    case PublishStep(token, response, reached) =>
      var f := w.flights[token];
      w.(clock := now, flights := w.flights[token := f.(response := Some(response))],
         deliveries := if reached then w.deliveries
             + [Delivery(f.claimed.key, Decode(f.claimed.payload).value, f.claimed.id)]
                       else w.deliveries)
    case FinalizeStep(token) =>
      var f := w.flights[token];
      var failed := f.response.value.Raise? && HoldsLease(w.db, f.claimed);
      w.(db := Finalized(h, w.db, f, stamp), clock := now, flights := w.flights - {token},
         failures := if failed then w.failures[f.claimed.id := FailuresOf(w, f.claimed.id) + 1] else w.failures)
    case CrashStep(token) => w.(clock := now, flights := w.flights - {token})
  }

  // -------------------------------------------------------------------- runs

  datatype Event = Event(step: Step, stamp: Stamp)

  /** A run that is possible from `w`. */
  predicate Legal(h: Hashes, max: nat, w: World, run: seq<Event>)
    decreases |run|
  {
    run == [] ||
    (Enabled(max, w, run[0].step, run[0].stamp) && Legal(h, max, Next(h, max, w, run[0].step, run[0].stamp), run[1..]))
  }

  function EndOf(h: Hashes, max: nat, w: World, run: seq<Event>): World
    requires Legal(h, max, w, run)
    decreases |run|
  {
    if run == [] then w else EndOf(h, max, Next(h, max, w, run[0].step, run[0].stamp), run[1..])
  }
}
