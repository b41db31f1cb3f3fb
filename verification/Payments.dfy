/** Which readings a settlement pays, and when two settlements pay the same one. */
module Payments {
  import opened Wrappers
  import opened Text
  import opened Decimals
  import opened Ordering
  import opened Signals
  import opened Domain
  import opened Outbox
  import opened Coordination
  import opened Evidence
  import opened Machine
  import opened Guarantees

  // --------------------------------------------------------- proper readings

  predicate ProperReadings(readings: map<string, Reading>) {
    forall x :: x in readings ==> readings[x].intervalStart < readings[x].intervalEnd
  }

  /** Only `record_meter_reading` adds a reading, and schema validation has seen it. */
  lemma ProperNext(h: Hashes, max: nat, w: World, step: Step, stamp: Stamp)
    requires Enabled(max, w, step, stamp) && ProperReadings(w.db.readings)
    ensures ProperReadings(Next(h, max, w, step, stamp).db.readings)
  {
    hide Perform, Claim, Finalized, FreshEvent, Decode, ProperReadings;
    match step
    case Api(c) => CommandReadings(h, w.db, c, stamp);
    case ClaimStep(cfg, token) => ClaimReadings(w.db, cfg, token, stamp.at);
    case FinalizeStep(token) => FinalizedReadings(h, w.db, w.flights[token], stamp);
    case _ =>
  }

  lemma CommandReadings(h: Hashes, db: Db, c: Command, stamp: Stamp)
    requires Admissible(db, c) && ProperReadings(db.readings)
    ensures ProperReadings(Perform(h, db, c, stamp).readings)
  {
    hide RegisterAsset, CreateOffer, Reserve, Issue, RecordReading, Coordination.Settle, Redrive, ProperReadings;
    if c.ReadingCommand? { NewReading(h, db, c.reading, c.actor, c.readingId, stamp); }
    else { OtherReadings(h, db, c, stamp); }
  }

  /** No command but `record_meter_reading` writes a reading. */
  lemma OtherReadings(h: Hashes, db: Db, c: Command, stamp: Stamp)
    requires Admissible(db, c) && !c.ReadingCommand?
    ensures Perform(h, db, c, stamp).readings == db.readings
  {
    hide RegisterAsset, CreateOffer, Reserve, Issue, RecordReading, Coordination.Settle, Redrive;
    match c
    case RegisterCommand(cmd, actor, id, correlationId) =>
      RegisterReadings(h, db, cmd, actor, id, correlationId, stamp);
    case OfferCommand(cmd, actor, id, correlationId) => OfferReadings(h, db, cmd, actor, id, correlationId, stamp);
    case ReserveCommand(offerId, cmd, actor, key, id) => ReserveReadings(h, db, offerId, cmd, actor, key, id, stamp);
    case IssueCommand(reservationId, cmd, actor, key, id, messageId) =>
      IssueReadings(h, db, reservationId, cmd, actor, key, id, messageId, stamp);
    case SettleCommand(reservationId, actor, key, id) => SettleReadings(h, db, reservationId, actor, key, id, stamp);
    case RedriveCommand(actor, messageId, dispatchId, reason) =>
      RedriveReadings(h, db, actor, messageId, dispatchId, reason, stamp);
  }

  lemma NewReading(h: Hashes, db: Db, cmd: MeterReadingCreate, actor: Actor, id: string, stamp: Stamp)
    requires cmd.Accepted() && ProperReadings(db.readings)
    ensures ProperReadings(Committed(RecordReading(h, db, cmd, actor, id, stamp), db).readings)
  {
    hide LogEvent, Micro, ReadingWith;
  }

  lemma RegisterReadings(h: Hashes, db: Db, cmd: AssetCreate, actor: Actor, id: string, correlationId: string,
                         stamp: Stamp)
    requires cmd.Accepted()
    ensures Committed(RegisterAsset(h, db, cmd, actor, id, correlationId, stamp), db).readings == db.readings
  {
    hide LogEvent, Micro;
  }

  lemma OfferReadings(h: Hashes, db: Db, cmd: OfferCreate, actor: Actor, id: string, correlationId: string,
                      stamp: Stamp)
    requires cmd.Accepted()
    ensures Committed(CreateOffer(h, db, cmd, actor, id, correlationId, stamp), db).readings == db.readings
  {
    hide LogEvent, Micro;
  }

  lemma ReserveReadings(h: Hashes, db: Db, offerId: string, cmd: ReservationCreate, actor: Actor, key: string,
                        id: string, stamp: Stamp)
    requires cmd.Accepted()
    ensures Committed(Reserve(h, db, offerId, cmd, actor, key, id, stamp), db).readings == db.readings
  {
    hide LogEvent, Micro, IdempotentResource;
  }

  lemma IssueReadings(h: Hashes, db: Db, reservationId: string, cmd: DispatchCreate, actor: Actor, key: string,
                      id: string, messageId: string, stamp: Stamp)
    requires cmd.Accepted()
    ensures Committed(Issue(h, db, reservationId, cmd, actor, key, id, messageId, stamp), db).readings == db.readings
  {
    hide LogEvent, Micro, IdempotentResource, Blank, DispatchPayload;
  }

  lemma SettleReadings(h: Hashes, db: Db, reservationId: string, actor: Actor, key: string, id: string, stamp: Stamp)
    ensures Committed(Coordination.Settle(h, db, reservationId, actor, key, id, stamp), db).readings == db.readings
  {
    hide LogEvent, IdempotentResource, WindowReadings, Decimals.Settle, Energies, DispatchOf;
  }

  lemma RedriveReadings(h: Hashes, db: Db, actor: Actor, messageId: string, dispatchId: string, reason: string,
                        stamp: Stamp)
    ensures Committed(Redrive(h, db, actor, messageId, dispatchId, reason, stamp), db).readings == db.readings
  {
    hide LogEvent, Squeeze;
  }

  lemma ClaimReadings(db: Db, cfg: WorkerConfig, token: string, now: int)
    ensures Claim(db, cfg, token, now).db.readings == db.readings
  {
    hide Claimable;
  }

  lemma FinalizedReadings(h: Hashes, db: Db, f: Flight, stamp: Stamp)
    requires f.response.Some?
    ensures Finalized(h, db, f, stamp).readings == db.readings
  {
    hide RecordSuccess, RecordFailure;
    match f.response.value
    case Ack(reference) => SuccessReadings(h, db, f.cfg, f.claimed, reference, stamp);
    case Raise(error) => FailureReadings(h, db, f.cfg, f.claimed, error, stamp);
  }

  lemma SuccessReadings(h: Hashes, db: Db, cfg: WorkerConfig, c: ClaimedMessage, reference: string, stamp: Stamp)
    ensures var r := RecordSuccess(h, db, cfg, c, reference, stamp); r.Done? ==> r.db.readings == db.readings
  {
    hide LogEvent;
  }

  lemma FailureReadings(h: Hashes, db: Db, cfg: WorkerConfig, c: ClaimedMessage, error: string, stamp: Stamp)
    ensures RecordFailure(h, db, cfg, c, error, stamp).db.readings == db.readings
  {
    hide LogEvent, AfterFailure, ErrorText, Rejection, SystemActor;
  }

  lemma {:induction false} ProperRun(h: Hashes, max: nat, w: World, run: seq<Event>)
    requires Legal(h, max, w, run) && ProperReadings(w.db.readings)
    ensures ProperReadings(EndOf(h, max, w, run).db.readings)
    decreases |run|
  {
    hide Enabled, Next, ProperReadings;
    if run != [] {
      ProperNext(h, max, w, run[0].step, run[0].stamp);
      ProperRun(h, max, Next(h, max, w, run[0].step, run[0].stamp), run[1..]);
    }
  }

  lemma ReachableProper(h: Hashes, max: nat, w: World)
    requires Reachable(h, max, w)
    ensures ProperReadings(w.db.readings)
  {
    hide Legal, EndOf;
    var clock, run :| Legal(h, max, Start(clock), run) && w == EndOf(h, max, Start(clock), run);
    ProperRun(h, max, Start(clock), run);
  }

  // ----------------------------------------------------------- what is paid

  /** A settlement lists a reading if and only if an event before its own recorded it, it is
      of the offered asset, and it lies inside the dispatch window; the list runs by start,
      then by id. */
  lemma PaidExactly(h: Hashes, max: nat, w: World, id: string) returns (n: nat)
    requires max >= 1 && Reachable(h, max, w) && id in w.db.settlements
    ensures AuditedAt(w.db, id, n)
    ensures var s := w.db.settlements[id];
            && s.reservationId in w.db.reservations && w.db.reservations[s.reservationId].offerId in w.db.offers
            && s.manifest.dispatchId in w.db.dispatches
            && w.db.dispatches[s.manifest.dispatchId].reservationId == s.reservationId
    ensures forall r :: r in w.db.settlements[id].manifest.readingIds <==>
              && (exists i :: 0 <= i < n && w.db.log[i].hashed.payload.ReadingRecorded?
                              && w.db.log[i].hashed.payload.readingId == r)
              && r in w.db.readings
              && w.db.readings[r].assetId
                 == w.db.offers[w.db.reservations[w.db.settlements[id].reservationId].offerId].assetId
              && w.db.dispatches[w.db.settlements[id].manifest.dispatchId].startsAt <= w.db.readings[r].intervalStart
              && w.db.readings[r].intervalEnd <= w.db.dispatches[w.db.settlements[id].manifest.dispatchId].endsAt
    ensures var ids := w.db.settlements[id].manifest.readingIds;
            forall i, j :: 0 <= i < j < |ids| ==>
              var a, b := w.db.readings[ids[i]].intervalStart, w.db.readings[ids[j]].intervalStart;
              a < b || (a == b && Less(ids[i], ids[j]))
  {
    hide Reachable, Evidenced, AuditedAt, Energies, ExactBill, Pow10, Less;
    EvidenceRecomputes(h, max, w, id);
    n :| AuditedAt(w.db, id, n) && PaysWindow(w.db, w.db.settlements[id], n);
    AuditedWithin(w.db, id, n);
  }

  lemma AuditedWithin(db: Db, id: string, n: nat)
    requires id in db.settlements && AuditedAt(db, id, n)
    ensures n < |db.log|
  {
  }

  /** The reading lies in the dispatch window of a settlement and is of the offered asset. */
  predicate PaidBy(db: Db, s: Settlement, r: Reading) {
    && s.reservationId in db.reservations && db.reservations[s.reservationId].offerId in db.offers
    && s.manifest.dispatchId in db.dispatches && db.dispatches[s.manifest.dispatchId].reservationId == s.reservationId
    && r.assetId == db.offers[db.reservations[s.reservationId].offerId].assetId
    && db.dispatches[s.manifest.dispatchId].startsAt <= r.intervalStart
    && r.intervalEnd <= db.dispatches[s.manifest.dispatchId].endsAt
  }

  /** Two settlements pay one reading only if they are for one asset and both dispatch
      windows hold the reading, so disjoint windows, or different assets, rule double payment
      out. */
  lemma PaidTwice(h: Hashes, max: nat, w: World, s: string, t: string, r: string)
    requires max >= 1 && Reachable(h, max, w) && s in w.db.settlements && t in w.db.settlements
    requires r in w.db.settlements[s].manifest.readingIds && r in w.db.settlements[t].manifest.readingIds
    ensures r in w.db.readings
    ensures PaidBy(w.db, w.db.settlements[s], w.db.readings[r]) && PaidBy(w.db, w.db.settlements[t], w.db.readings[r])
    ensures var d, e := w.db.dispatches[w.db.settlements[s].manifest.dispatchId],
                        w.db.dispatches[w.db.settlements[t].manifest.dispatchId];
            d.startsAt < e.endsAt && e.startsAt < d.endsAt
  {
    hide Reachable, AuditedAt;
    ReachableProper(h, max, w);
    var m := PaidExactly(h, max, w, s);
    var n := PaidExactly(h, max, w, t);
    assert w.db.readings[r].intervalStart < w.db.readings[r].intervalEnd;
  }

  // ------------------------------------------------------------ independence

  /** What a settlement would bill for a reservation, if it may be settled. */
  function BillFor(db: Db, reservationId: string): Option<(seq<string>, Bill)> {
    hide WindowReadings, Energies, Decimals.Settle;
    if reservationId !in db.reservations || db.reservations[reservationId].status != Dispatched then None
    else
      match DispatchOf(db, reservationId)
      case None => None
      case Some(d) =>
        if db.dispatches[d].status != Issued || db.reservations[reservationId].offerId !in db.offers then None
        else
          var offer := db.offers[db.reservations[reservationId].offerId];
          var ids := WindowReadings(db.readings, offer.assetId, db.dispatches[d].startsAt, db.dispatches[d].endsAt);
          match Decimals.Settle(Energies(db.readings, ids), offer.price)
          case None => None
          case Some(bill) => Some((ids, bill))
  }

  predicate ShowsBill(s: Settlement, bill: Option<(seq<string>, Bill)>) {
    && bill.Some? && s.manifest.readingIds == bill.value.0
    && s.delivered == bill.value.1.delivered && s.amount == bill.value.1.amount
  }

  /** A new settlement shows just that bill. */
  lemma SettlesFor(h: Hashes, db: Db, reservationId: string, actor: Actor, key: string, requestHash: string, id: string,
                   stamp: Stamp)
    requires SettleNew(h, db, reservationId, actor, key, requestHash, id, stamp).Done?
    ensures var after := SettleNew(h, db, reservationId, actor, key, requestHash, id, stamp).db;
            id in after.settlements && ShowsBill(after.settlements[id], BillFor(db, reservationId))
  {
    hide WindowReadings, Energies, Decimals.Settle, DispatchOf, LogEvent;
  }

  /** Settling one reservation leaves the bill of every other as it was. */
  lemma BillsIndependent(h: Hashes, db: Db, x: string, y: string, actor: Actor, key: string, hash: string, id: string,
                         stamp: Stamp)
    requires x != y && SettleNew(h, db, x, actor, key, hash, id, stamp).Done?
    ensures BillFor(SettleNew(h, db, x, actor, key, hash, id, stamp).db, y) == BillFor(db, y)
  {
    hide DispatchOf, BillFor, Settled;
    var after := SettleNew(h, db, x, actor, key, hash, id, stamp).db;
    SettledRows(h, db, x, actor, key, hash, id, stamp);
    SameDispatchOf(db, after, y);
    SameBill(db, after, y);
  }

  /** A new settlement changes statuses of its own reservation and dispatch only. */
  lemma SettledRows(h: Hashes, db: Db, x: string, actor: Actor, key: string, hash: string, id: string, stamp: Stamp)
    requires SettleNew(h, db, x, actor, key, hash, id, stamp).Done?
    ensures var after := SettleNew(h, db, x, actor, key, hash, id, stamp).db;
            && after.readings == db.readings && after.offers == db.offers
            && (forall r :: r in after.reservations <==> r in db.reservations)
            && (forall r :: r in db.reservations && r != x ==> after.reservations[r] == db.reservations[r])
            && (forall d :: d in after.dispatches <==> d in db.dispatches)
            && (forall d :: d in db.dispatches ==> after.dispatches[d].reservationId == db.dispatches[d].reservationId)
            && (forall d :: d in db.dispatches && db.dispatches[d].reservationId != x ==>
                  after.dispatches[d] == db.dispatches[d])
  {
    hide WindowReadings, Energies, Decimals.Settle, LogEvent, DispatchOf;
  }

  lemma SameDispatchOf(a: Db, b: Db, y: string)
    requires forall d :: d in b.dispatches <==> d in a.dispatches
    requires forall d :: d in a.dispatches ==> b.dispatches[d].reservationId == a.dispatches[d].reservationId
    ensures DispatchOf(a, y) == DispatchOf(b, y)
  {
    assert (set d | d in a.dispatches && a.dispatches[d].reservationId == y :: Rank(0, 0, d))
        == (set d | d in b.dispatches && b.dispatches[d].reservationId == y :: Rank(0, 0, d));
  }

  lemma SameBill(a: Db, b: Db, y: string)
    requires DispatchOf(a, y) == DispatchOf(b, y) && a.readings == b.readings && a.offers == b.offers
    requires y in b.reservations <==> y in a.reservations
    requires y in a.reservations ==> b.reservations[y] == a.reservations[y]
    requires DispatchOf(a, y).Some? ==> b.dispatches[DispatchOf(a, y).value] == a.dispatches[DispatchOf(a, y).value]
    ensures BillFor(a, y) == BillFor(b, y)
  {
    hide WindowReadings, Energies, Decimals.Settle, DispatchOf;
  }

  /** Settling one reservation neither opens nor closes the way to settle another, and both
      settlements show the bills that stood before either: a reading in both bills is paid
      twice. */
  lemma SettlementsIndependent(h: Hashes, db: Db, x: string, actor: Actor, key: string, hash: string, id: string,
                               stamp: Stamp, y: string, actor': Actor, key': string, hash': string, id': string,
                               stamp': Stamp)
    requires x != y && id !in db.settlements && id' != id
    requires SettleNew(h, db, x, actor, key, hash, id, stamp).Done?
    ensures var between := SettleNew(h, db, x, actor, key, hash, id, stamp).db;
            var second := SettleNew(h, between, y, actor', key', hash', id', stamp');
            && (second.Done? <==> SettleNew(h, db, y, actor', key', hash', id', stamp').Done?)
            && (second.Done? ==>
                  && id in second.db.settlements && id' in second.db.settlements
                  && ShowsBill(second.db.settlements[id], BillFor(db, x))
                  && ShowsBill(second.db.settlements[id'], BillFor(db, y)))
  {
    hide BillFor, Settled, SettleNew, ShowsBill;
    var between := SettleNew(h, db, x, actor, key, hash, id, stamp).db;
    BillsIndependent(h, db, x, y, actor, key, hash, id, stamp);
    SettlesFor(h, db, x, actor, key, hash, id, stamp);
    SameWay(h, db, x, actor, key, hash, id, stamp, y, actor', key', hash', id', stamp');
    if SettleNew(h, between, y, actor', key', hash', id', stamp').Done? {
      SettlesFor(h, between, y, actor', key', hash', id', stamp');
      OthersStay(h, between, y, actor', key', hash', id', stamp', id);
    }
  }

  lemma OthersStay(h: Hashes, db: Db, y: string, actor: Actor, key: string, hash: string, id: string, stamp: Stamp,
                   other: string)
    requires SettleNew(h, db, y, actor, key, hash, id, stamp).Done? && other != id && other in db.settlements
    ensures var after := SettleNew(h, db, y, actor, key, hash, id, stamp).db;
            other in after.settlements && after.settlements[other] == db.settlements[other]
  {
    hide WindowReadings, Energies, Decimals.Settle, DispatchOf, LogEvent;
  }

  /** Whether a new settlement of `y` would succeed. */
  predicate MayBill(db: Db, y: string, actorId: string) {
    && BillFor(db, y).Some? && BillFor(db, y).value.0 != []
    && DispatchOf(db, y).Some? && y in db.reservations
    && actorId != db.dispatches[DispatchOf(db, y).value].issuedBy && actorId != db.reservations[y].requestedBy
    && forall s :: s in db.settlements ==> db.settlements[s].reservationId != y
  }

  lemma SucceedsExactly(h: Hashes, db: Db, y: string, actor: Actor, key: string, hash: string, id: string, stamp: Stamp)
    ensures SettleNew(h, db, y, actor, key, hash, id, stamp).Done? <==> MayBill(db, y, actor.actorId)
  {
    hide WindowReadings, Energies, Decimals.Settle, DispatchOf, Settled;
  }

  lemma SameWay(h: Hashes, db: Db, x: string, actor: Actor, key: string, hash: string, id: string, stamp: Stamp,
                y: string, actor': Actor, key': string, hash': string, id': string, stamp': Stamp)
    requires x != y && id !in db.settlements && SettleNew(h, db, x, actor, key, hash, id, stamp).Done?
    ensures var between := SettleNew(h, db, x, actor, key, hash, id, stamp).db;
            SettleNew(h, between, y, actor', key', hash', id', stamp').Done? <==>
              SettleNew(h, db, y, actor', key', hash', id', stamp').Done?
  {
    hide SettleNew, BillFor, DispatchOf;
    var between := SettleNew(h, db, x, actor, key, hash, id, stamp).db;
    BillsIndependent(h, db, x, y, actor, key, hash, id, stamp);
    SettledRows(h, db, x, actor, key, hash, id, stamp);
    SameDispatchOf(db, between, y);
    OneSettlement(h, db, x, actor, key, hash, id, stamp);
    SucceedsExactly(h, db, y, actor', key', hash', id', stamp');
    SucceedsExactly(h, between, y, actor', key', hash', id', stamp');
    if forall s :: s in between.settlements ==> between.settlements[s].reservationId != y {
      forall s | s in db.settlements ensures db.settlements[s].reservationId != y {
        assert s in between.settlements;
      }
    }
  }

  lemma OneSettlement(h: Hashes, db: Db, x: string, actor: Actor, key: string, hash: string, id: string, stamp: Stamp)
    requires SettleNew(h, db, x, actor, key, hash, id, stamp).Done?
    ensures var after := SettleNew(h, db, x, actor, key, hash, id, stamp).db;
            && id in after.settlements && after.settlements[id].reservationId == x
            && after.settlements == db.settlements[id := after.settlements[id]]
  {
    hide WindowReadings, Energies, Decimals.Settle, DispatchOf, LogEvent;
  }
}
