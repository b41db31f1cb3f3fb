/** What an auditor can reconstruct from the log alone: the status of every offer,
    reservation, dispatch and outbox message, and whether each event was permitted when
    it was written. */
module Replay {
  import opened Wrappers
  import opened AuditChain
  import opened Domain

  /** Message statuses as the log shows them; pending and processing look alike. */
  datatype DeliveryStatus = Waiting | Delivered | DeadLetter

  datatype Books = Books(
    offers: map<string, OfferStatus>,
    reservations: map<string, ReservationStatus>,
    dispatches: map<string, DispatchStatus>,
    messages: map<string, DeliveryStatus>,
    reservationOf: map<string, string>)

  const EMPTY_BOOKS := Books(map[], map[], map[], map[], map[])

  /** The effect of one event on the books. */
  function Enter(b: Books, f: Fact): Books {
    match f
    case OfferCreated(o, _, _, _, _, _, _) => b.(offers := b.offers[o := Open])
    case OfferTaken(r, o, _) =>
      b.(offers := b.offers[o := OfferReserved], reservations := b.reservations[r := Reserved])
    case DispatchQueued(d, r, _, _, _, m) =>
      b.(dispatches := b.dispatches[d := Queued], reservations := b.reservations[r := DispatchPending],
         messages := b.messages[m := Waiting], reservationOf := b.reservationOf[d := r])
    case DispatchPublished(d, m, _, _) => Deliver(b, d, m, Issued, Dispatched, Delivered)
    case DeliveryFailed(d, m, _, _) => Deliver(b, d, m, Rejected, Cancelled, DeadLetter)
    case RedriveAuthorized(d, m, _, _, _) => Deliver(b, d, m, Queued, DispatchPending, Waiting)
    case SettlementCalculated(_, r, d, _, _, _, _) =>
      b.(dispatches := b.dispatches[d := DispatchCompleted], reservations := b.reservations[r := ReservationCompleted])
    case _ => b
  }

  function Deliver(b: Books, d: string, m: string, ds: DispatchStatus, rs: ReservationStatus,
                   ms: DeliveryStatus): Books {
    b.(dispatches := b.dispatches[d := ds],
       reservations := if d in b.reservationOf then b.reservations[b.reservationOf[d] := rs] else b.reservations,
       messages := b.messages[m := ms])
  }

  /** Folding a log from empty books. */
  function Replayed(log: seq<AuditEvent<Fact>>): Books {
    if log == [] then EMPTY_BOOKS
    else Enter(Replayed(log[..|log| - 1]), log[|log| - 1].hashed.payload)
  }

  /** When an event may follow the books so far. */
  predicate Permitted(b: Books, f: Fact) {
    match f
    case OfferCreated(o, _, _, _, _, _, _) => o !in b.offers
    case OfferTaken(r, o, _) => o in b.offers && b.offers[o] == Open && r !in b.reservations
    case DispatchQueued(d, r, _, _, _, m) =>
      d !in b.dispatches && m !in b.messages && r in b.reservations && b.reservations[r] == Reserved
    case DispatchPublished(d, m, _, _) => InState(b, d, m, Queued, DispatchPending, Waiting)
    case DeliveryFailed(d, m, _, _) => InState(b, d, m, Queued, DispatchPending, Waiting)
    case RedriveAuthorized(d, m, _, _, _) => InState(b, d, m, Rejected, Cancelled, DeadLetter)
    case SettlementCalculated(_, r, d, _, _, _, _) =>
      && d in b.dispatches && b.dispatches[d] == Issued
      && d in b.reservationOf && b.reservationOf[d] == r
      && r in b.reservations && b.reservations[r] == Dispatched
    case _ => true
  }

  predicate InState(b: Books, d: string, m: string, ds: DispatchStatus, rs: ReservationStatus, ms: DeliveryStatus) {
    && d in b.dispatches && b.dispatches[d] == ds
    && d in b.reservationOf && b.reservationOf[d] in b.reservations && b.reservations[b.reservationOf[d]] == rs
    && m in b.messages && b.messages[m] == ms
  }

  /** Every event of the log was permitted when it was written. */
  predicate Lawful(log: seq<AuditEvent<Fact>>)
    decreases |log|
  {
    log == [] ||
    (Lawful(log[..|log| - 1]) && Permitted(Replayed(log[..|log| - 1]), log[|log| - 1].hashed.payload))
  }

  // -------------------------------------------------- the books of a database

  function DeliveryOf(s: OutboxStatus): DeliveryStatus {
    match s
    case Pending => Waiting
    case Processing => Waiting
    case Published => Delivered
    case Dead => DeadLetter
  }

  function Statuses(db: Db): Books {
    Books(OfferBook(db.offers), ReservationBook(db.reservations), DispatchBook(db.dispatches), MessageBook(db.messages),
          ReservationOf(db.dispatches))
  }

  function OfferBook(offers: map<string, Offer>): map<string, OfferStatus> { map x | x in offers :: offers[x].status }

  function ReservationBook(reservations: map<string, Reservation>): map<string, ReservationStatus> {
    map x | x in reservations :: reservations[x].status
  }

  function DispatchBook(dispatches: map<string, Dispatch>): map<string, DispatchStatus> {
    map x | x in dispatches :: dispatches[x].status
  }

  function MessageBook(messages: map<string, Message>): map<string, DeliveryStatus> {
    map x | x in messages :: DeliveryOf(messages[x].status)
  }

  function ReservationOf(dispatches: map<string, Dispatch>): map<string, string> {
    map x | x in dispatches :: dispatches[x].reservationId
  }

  /** The meter reading that an event records. */
  function ReadingIn(f: Fact): set<string> { if f.ReadingRecorded? then {f.readingId} else {} }

  /** The meter readings that a log records. */
  function RecordedIn(log: seq<AuditEvent<Fact>>): set<string> {
    if log == [] then {} else RecordedIn(log[..|log| - 1]) + ReadingIn(log[|log| - 1].hashed.payload)
  }

  /** The log is intact, lawful, and tells the statuses of the database. */
  ghost predicate LogInv(h: Hashes, db: Db) {
    Valid(h.event, db.log) && Lawful(db.log) && Replayed(db.log) == Statuses(db)
        && RecordedIn(db.log) == db.readings.Keys
  }

  /** A transaction wrote one permitted event that accounts for its status changes. */
  ghost predicate Accounted(h: Hashes, a: Db, b: Db, f: Fact) {
    && Permitted(Statuses(a), f)
    && Statuses(b) == Enter(Statuses(a), f)
    && b.readings.Keys == a.readings.Keys + ReadingIn(f)
    && exists actorId, correlationId, stamp :: b.log == LogEvent(h, a.log, f, actorId, correlationId, stamp)
  }

  /** A transaction that wrote no event and changed no status. */
  predicate Silent(a: Db, b: Db) { b.log == a.log && Statuses(b) == Statuses(a) && b.readings == a.readings }

  lemma AccountedKeeps(h: Hashes, a: Db, b: Db, f: Fact)
    requires LogInv(h, a) && Accounted(h, a, b, f)
    ensures LogInv(h, b)
  {
    hide Permitted, Enter, Statuses, ReadingIn;
    var actorId, correlationId, stamp :| b.log == LogEvent(h, a.log, f, actorId, correlationId, stamp);
    var draft := Material(stamp.eventId, AggregateType(f), AggregateId(f), EventType(f), actorId, correlationId, f,
                          stamp.at, "");
    assert b.log == a.log + [NextEvent(h.event, a.log, draft)];
    AppendKeepsValid(h.event, a.log, draft);
    assert b.log[..|b.log| - 1] == a.log;
  }

  // --------------------------------------------------- the life of a dispatch

  datatype Letter = Q | F | R | P | S

  function LetterOf(f: Fact, dispatchId: string): Option<Letter> {
    match f
    case DispatchQueued(d, _, _, _, _, _) => if d == dispatchId then Some(Q) else None
    case DeliveryFailed(d, _, _, _) => if d == dispatchId then Some(F) else None
    case RedriveAuthorized(d, _, _, _, _) => if d == dispatchId then Some(R) else None
    case DispatchPublished(d, _, _, _) => if d == dispatchId then Some(P) else None
    case SettlementCalculated(_, _, d, _, _, _, _) => if d == dispatchId then Some(S) else None
    case _ => None
  }

  /** The events of one dispatch, in log order. */
  function History(log: seq<AuditEvent<Fact>>, dispatchId: string): seq<Letter> {
    if log == [] then []
    else
      var before := History(log[..|log| - 1], dispatchId);
      match LetterOf(log[|log| - 1].hashed.payload, dispatchId)
      case None => before
      case Some(l) => before + [l]
  }

  /** `(delivery_failed redrive_authorized)` repeated k times. */
  function Cycles(k: nat): seq<Letter> {
    if k == 0 then [] else Cycles(k - 1) + [F, R]
  }

  function Ending(s: DispatchStatus): seq<Letter> {
    match s
    case Queued => []
    case Rejected => [F]
    case Issued => [P]
    case DispatchCompleted => [P, S]
  }

  function Life(k: nat, s: DispatchStatus): seq<Letter> { [Q] + Cycles(k) + Ending(s) }

  ghost predicate LivesSo(w: seq<Letter>, s: DispatchStatus) { exists k: nat :: w == Life(k, s) }

  /** In a lawful log the events of every dispatch form the word
      queued (delivery_failed redrive_authorized)* followed by the ending that belongs to
      its status. */
  lemma {:induction false} LawfulLives(log: seq<AuditEvent<Fact>>, d: string)
    requires Lawful(log)
    ensures d !in Replayed(log).dispatches ==> History(log, d) == []
    ensures d in Replayed(log).dispatches ==> LivesSo(History(log, d), Replayed(log).dispatches[d])
    decreases |log|
  {
    if log != [] {
      var before, f := log[..|log| - 1], log[|log| - 1].hashed.payload;
      LawfulLives(before, d);
      NextLetter(Replayed(before), f, d, History(before, d));
    }
  }

  lemma NextLetter(b: Books, f: Fact, d: string, w: seq<Letter>)
    requires Permitted(b, f)
    requires d !in b.dispatches ==> w == []
    requires d in b.dispatches ==> LivesSo(w, b.dispatches[d])
    ensures
      var b' := Enter(b, f);
      var w' := match LetterOf(f, d) case None => w case Some(l) => w + [l];
      && (d !in b'.dispatches ==> w' == [])
      && (d in b'.dispatches ==> LivesSo(w', b'.dispatches[d]))
  {
    match f
    case DispatchQueued(x, _, _, _, _, _) => if x == d { assert w + [Q] == Life(0, Queued); }
    case DeliveryFailed(x, _, _, _) => if x == d { Extend(w, Queued, F); }
    case RedriveAuthorized(x, _, _, _, _) => if x == d { Extend(w, Rejected, R); }
    case DispatchPublished(x, _, _, _) => if x == d { Extend(w, Queued, P); }
    case SettlementCalculated(_, _, x, _, _, _, _) => if x == d { Extend(w, Issued, S); }
    case _ =>
  }

  /** The statuses that the later letters lead to. */
  function After(s: DispatchStatus, l: Letter): DispatchStatus {
    match l
    case F => Rejected
    case R => Queued
    case P => Issued
    case S => DispatchCompleted
    case Q => s
  }

  lemma Extend(w: seq<Letter>, s: DispatchStatus, l: Letter)
    requires LivesSo(w, s)
    requires (s == Queued && (l == F || l == P)) || (s == Rejected && l == R) || (s == Issued && l == S)
    ensures LivesSo(w + [l], After(s, l))
  {
    var k: nat :| w == Life(k, s);
    if l == R {
      assert Cycles(k + 1) == Cycles(k) + [F, R];
      assert w + [R] == Life(k + 1, Queued);
    } else {
      assert w + [l] == Life(k, After(s, l));
    }
  }
}
