/** A run in which two settlements pay one meter reading: two offers of one asset, two
    dispatches over the same window, one reading. */
module DoublePayment {
  import opened Wrappers
  import opened Text
  import opened Decimals
  import opened Signals
  import opened Domain
  import opened Coordination
  import opened Invariants
  import opened Machine
  import opened Guarantees
  import opened Runs
  import opened Overdraft
  import opened Drain
  import opened Payments

  const ANALYST := Actor("analyst", SettlementAnalyst)

  const HOUSE := Asset("x", "owner", Battery, 1_000_000, "z", Active)
  const WHOLE := Offer("a", 0, 1, Increase, 1_000_000, 1_000_000, Open, "owner")

  lemma KeysReal()
    ensures !Blank("one") && !Blank("two") && !Blank("first") && !Blank("second")
  {
    assert "one"[0] == 'o' && "two"[0] == 't' && "first"[0] == 'f' && "second"[0] == 's';
  }

  /** No settlement has been asked for yet. */
  predicate Unasked(records: map<(Operation, string), IdempotencyRecord>) {
    forall p :: p in records ==> p.0 != SettleReservation
  }

  lemma TwoOffers(h: Hashes, max: nat) returns (w: World)
    requires max >= 1
    ensures Reachable(h, max, w) && w.clock == 0
    ensures w.db == Db(map["a" := HOUSE], map["f" := WHOLE, "g" := WHOLE], map[], map[], map[], map[], map[], map[],
                       w.db.log)
  {
    hide Reachable, LogEvent, Numeric18, Micro;
    OneIsMillion();
    var before := Offered(h, max);
    var stamp := FreshStamp(before.db, 0);
    var c := OfferCommand(OfferCreate("a", Zoned(0, 0), Zoned(1, 0), Increase, ONE, ONE), OWNER, "g", "c");
    w := Next(h, max, before, Api(c), stamp);
    ReachableNext(h, max, before, Api(c), stamp);
  }

  lemma OneHeld(h: Hashes, max: nat) returns (w: World)
    requires max >= 1
    ensures Reachable(h, max, w) && w.clock == 0
    ensures w.db == Db(map["a" := HOUSE], map["f" := WHOLE.(status := OfferReserved), "g" := WHOLE],
                       map["r" := Reservation("f", 1_000_000, Reserved, "operator")],
                       map[], map[], map[], w.db.idempotency, map[], w.db.log)
    ensures w.db.idempotency.Keys == {(ReserveOffer, "one")}
  {
    hide Reachable, LogEvent, Numeric18, Micro, Blank;
    OneIsMillion();
    KeysReal();
    var before := TwoOffers(h, max);
    var stamp := FreshStamp(before.db, 0);
    var c := ReserveCommand("f", ReservationCreate(ONE), OPERATOR, "one", "r");
    w := Next(h, max, before, Api(c), stamp);
    ReachableNext(h, max, before, Api(c), stamp);
  }

  const BOTH_TAKEN := map["f" := WHOLE.(status := OfferReserved), "g" := WHOLE.(status := OfferReserved)]

  /** Both offers are reserved. */
  predicate BothHeld(db: Db) {
    && db.assets == map["a" := HOUSE] && db.offers == BOTH_TAKEN
    && db.reservations == map["r" := Reservation("f", 1_000_000, Reserved, "operator"),
                              "s" := Reservation("g", 1_000_000, Reserved, "operator")]
    && db.dispatches == map[] && db.readings == map[] && db.settlements == map[] && db.messages == map[]
    && db.idempotency.Keys == {(ReserveOffer, "one"), (ReserveOffer, "two")}
  }

  lemma SecondReserves(h: Hashes, db: Db, stamp: Stamp)
    requires db.assets == map["a" := HOUSE]
    requires db.offers == map["f" := WHOLE.(status := OfferReserved), "g" := WHOLE]
    requires db.reservations == map["r" := Reservation("f", 1_000_000, Reserved, "operator")]
    requires db.dispatches == map[] && db.readings == map[] && db.settlements == map[] && db.messages == map[]
    requires db.idempotency.Keys == {(ReserveOffer, "one")} && ReservationCreate(ONE).Accepted()
    ensures var o := Reserve(h, db, "g", ReservationCreate(ONE), OPERATOR, "two", "s", stamp);
            o.Done? && BothHeld(o.db)
  {
    hide LogEvent, Numeric18, Micro, Blank;
    OneIsMillion();
    KeysReal();
  }

  lemma TwoHeld(h: Hashes, max: nat) returns (w: World)
    requires max >= 1
    ensures Reachable(h, max, w) && w.clock == 0 && BothHeld(w.db)
  {
    hide Reachable, LogEvent, Numeric18, Micro, Blank, Reserve;
    OneIsMillion();
    var before := OneHeld(h, max);
    var stamp := FreshStamp(before.db, 0);
    SecondReserves(h, before.db, stamp);
    var c := ReserveCommand("g", ReservationCreate(ONE), OPERATOR, "two", "s");
    w := Next(h, max, before, Api(c), stamp);
    ReachableNext(h, max, before, Api(c), stamp);
  }

  /** The first dispatch is queued. */
  predicate FirstQueued(db: Db) {
    && db.assets == map["a" := HOUSE] && db.offers == BOTH_TAKEN && db.readings == map[] && db.settlements == map[]
    && db.reservations == map["r" := Reservation("f", 1_000_000, DispatchPending, "operator"),
                              "s" := Reservation("g", 1_000_000, Reserved, "operator")]
    && db.dispatches.Keys == {"d"} && DispatchRow(db.dispatches["d"], "r")
    && db.idempotency.Keys == {(ReserveOffer, "one"), (ReserveOffer, "two"), (IssueDispatch, "one")}
    && db.messages.Keys == {"m"} && db.messages["m"].key == "one" && WaitsFor(db.messages, "m", "d")
  }

  lemma FirstIssues(h: Hashes, db: Db, stamp: Stamp)
    requires BothHeld(db) && DispatchCreate(ONE, Zoned(0, 0), Zoned(1, 0)).Accepted()
    ensures var o := Issue(h, db, "r", DispatchCreate(ONE, Zoned(0, 0), Zoned(1, 0)), OPERATOR, "one", "d", "m", stamp);
            o.Done? && FirstQueued(o.db)
  {
    hide IssueNew, Numeric18, Micro, Blank, FirstQueued, Rows, WaitsFor;
    KeysReal();
    var hash := h.request(DispatchRequest("r", ONE, Zoned(0, 0), Zoned(1, 0), "operator"));
    FirstQueues(h, db, hash, stamp);
  }

  lemma FirstQueues(h: Hashes, db: Db, hash: string, stamp: Stamp)
    requires BothHeld(db) && DispatchCreate(ONE, Zoned(0, 0), Zoned(1, 0)).Accepted()
    ensures var o := IssueNew(h, db, "r", DispatchCreate(ONE, Zoned(0, 0), Zoned(1, 0)), OPERATOR, "one", hash, "d",
                              "m", stamp);
            o.Done? && FirstQueued(o.db)
  {
    hide LogEvent, Numeric18, Micro, Blank, DispatchPayload;
    OneIsMillion();
    KeysReal();
  }

  lemma OneQueued(h: Hashes, max: nat) returns (w: World)
    requires max >= 1
    ensures Reachable(h, max, w) && w.clock == 0 && FirstQueued(w.db)
  {
    hide Reachable, LogEvent, Numeric18, Micro, Blank, Issue;
    OneIsMillion();
    var before := TwoHeld(h, max);
    var stamp := FreshStamp(before.db, 0);
    FirstIssues(h, before.db, stamp);
    var c := IssueCommand("r", DispatchCreate(ONE, Zoned(0, 0), Zoned(1, 0)), OPERATOR, "one", "d", "m");
    w := Next(h, max, before, Api(c), stamp);
    ReachableNext(h, max, before, Api(c), stamp);
  }

  /** The rows on which both settlements will rest. */
  predicate Rows(db: Db) {
    && db.assets == map["a" := HOUSE]
    && db.offers == map["f" := WHOLE.(status := OfferReserved), "g" := WHOLE.(status := OfferReserved)]
    && db.settlements == map[] && Unasked(db.idempotency)
    && "r" in db.reservations && db.reservations["r"].offerId == "f" && db.reservations["r"].requestedBy == "operator"
    && "s" in db.reservations && db.reservations["s"].offerId == "g" && db.reservations["s"].requestedBy == "operator"
    && "d" in db.dispatches && DispatchRow(db.dispatches["d"], "r")
    && "e" in db.dispatches && DispatchRow(db.dispatches["e"], "s")
  }

  predicate DispatchRow(d: Dispatch, reservationId: string) {
    d.reservationId == reservationId && d.startsAt == 0 && d.endsAt == 1 && d.issuedBy == "operator"
  }

  predicate WaitsFor(messages: Messages, id: string, dispatchId: string) {
    id in messages && messages[id].aggregateId == dispatchId && messages[id].status == Pending
  }

  lemma SecondIssues(h: Hashes, db: Db, stamp: Stamp)
    requires FirstQueued(db) && DispatchCreate(ONE, Zoned(0, 0), Zoned(1, 0)).Accepted()
    ensures var o := Issue(h, db, "s", DispatchCreate(ONE, Zoned(0, 0), Zoned(1, 0)), OPERATOR, "two", "e", "n", stamp);
            && o.Done? && Rows(o.db) && o.db.readings == map[]
            && WaitsFor(o.db.messages, "m", "d") && WaitsFor(o.db.messages, "n", "e")
  {
    hide IssueNew, Numeric18, Micro, Blank, Rows, WaitsFor;
    KeysReal();
    var hash := h.request(DispatchRequest("s", ONE, Zoned(0, 0), Zoned(1, 0), "operator"));
    SecondQueues(h, db, hash, stamp);
  }

  lemma SecondQueues(h: Hashes, db: Db, hash: string, stamp: Stamp)
    requires FirstQueued(db) && DispatchCreate(ONE, Zoned(0, 0), Zoned(1, 0)).Accepted()
    ensures var o := IssueNew(h, db, "s", DispatchCreate(ONE, Zoned(0, 0), Zoned(1, 0)), OPERATOR, "two", hash, "e",
                              "n", stamp);
            && o.Done? && Rows(o.db) && o.db.readings == map[]
            && WaitsFor(o.db.messages, "m", "d") && WaitsFor(o.db.messages, "n", "e")
  {
    hide LogEvent, Numeric18, Micro, Blank, DispatchPayload;
    OneIsMillion();
    KeysReal();
  }

  lemma TwoQueued(h: Hashes, max: nat) returns (w: World)
    requires max >= 1
    ensures Reachable(h, max, w) && w.clock == 0 && Rows(w.db) && w.db.readings == map[]
    ensures WaitsFor(w.db.messages, "m", "d") && WaitsFor(w.db.messages, "n", "e")
  {
    hide Reachable, LogEvent, Numeric18, Micro, Blank, Issue, Rows, WaitsFor;
    OneIsMillion();
    var before := OneQueued(h, max);
    var stamp := FreshStamp(before.db, 0);
    SecondIssues(h, before.db, stamp);
    var c := IssueCommand("s", DispatchCreate(ONE, Zoned(0, 0), Zoned(1, 0)), OPERATOR, "two", "e", "n");
    w := Next(h, max, before, Api(c), stamp);
    ReachableNext(h, max, before, Api(c), stamp);
  }

  /** One reading of the asset, over the whole window. */
  predicate Metered(db: Db) {
    && db.readings.Keys == {"x"} && db.readings["x"].energy == 1_000_000
    && InWindow(db.readings["x"], "a", 0, 1) && db.readings["x"].intervalStart == 0
  }

  lemma OneReading(h: Hashes, max: nat) returns (w: World)
    requires max >= 1
    ensures Reachable(h, max, w) && Rows(w.db) && Metered(w.db)
    ensures WaitsFor(w.db.messages, "m", "d") && WaitsFor(w.db.messages, "n", "e")
  {
    hide Reachable, LogEvent, Numeric18, Micro;
    OneIsMillion();
    var before := TwoQueued(h, max);
    var stamp := FreshStamp(before.db, 0);
    var c := ReadingCommand(MeterReadingCreate("a", Zoned(0, 0), Zoned(1, 0), ONE, "meter"), OWNER, "x");
    w := Next(h, max, before, Api(c), stamp);
    ReachableNext(h, max, before, Api(c), stamp);
  }

  // ---------------------------------------------------------------- delivery

  /** A reservation that waits for its settlement only. */
  predicate Ready(db: Db, reservationId: string, dispatchId: string) {
    && reservationId in db.reservations && db.reservations[reservationId].status == Dispatched
    && dispatchId in db.dispatches && db.dispatches[dispatchId].status == Issued
    && DispatchOf(db, reservationId) == Some(dispatchId)
  }

  lemma BothDelivered(h: Hashes, max: nat) returns (w: World)
    requires max >= 1
    ensures Reachable(h, max, w) && Rows(w.db) && Metered(w.db) && Ready(w.db, "r", "d") && Ready(w.db, "s", "e")
  {
    hide Reachable, Legal, EndOf, Drained, Rows, Metered, WaitsFor, Ready;
    var before := OneReading(h, max);
    NothingIsStuck(h, max, before);
    var run :| && Legal(h, max, before, run) && Drained(before.db.messages, EndOf(h, max, before, run).db.messages)
               && OnlyDelivery(before.db, EndOf(h, max, before, run).db);
    w := EndOf(h, max, before, run);
    ReachableOn(h, max, before, run);
    DeliveredRows(h, max, before, run, w);
    DeliveredReady(h, max, before.db.messages, w, "m", "r", "d");
    DeliveredReady(h, max, before.db.messages, w, "n", "s", "e");
  }

  lemma DeliveredRows(h: Hashes, max: nat, before: World, run: seq<Event>, w: World)
    requires max >= 1 && Reachable(h, max, before) && Legal(h, max, before, run) && w == EndOf(h, max, before, run)
    requires Rows(before.db) && Metered(before.db) && OnlyDelivery(before.db, w.db)
    requires WaitsFor(before.db.messages, "m", "d") && WaitsFor(before.db.messages, "n", "e")
    ensures Rows(w.db) && Metered(w.db)
    ensures "m" in w.db.messages && w.db.messages["m"].aggregateId == "d"
    ensures "n" in w.db.messages && w.db.messages["n"].aggregateId == "e"
    ensures "d" in w.db.dispatches && w.db.dispatches["d"].reservationId == "r"
    ensures "e" in w.db.dispatches && w.db.dispatches["e"].reservationId == "s" && w.db.settlements == map[]
  {
    hide Reachable, Legal, EndOf, MachineInvariants.WorldInv, HOUSE, WHOLE;
    ReachableInv(h, max, before);
    RunExtends(h, max, before, run);
    assert SameDispatch(before.db.dispatches["d"], w.db.dispatches["d"]);
    assert SameDispatch(before.db.dispatches["e"], w.db.dispatches["e"]);
    assert SameReservation(before.db.reservations["r"], w.db.reservations["r"]);
    assert SameReservation(before.db.reservations["s"], w.db.reservations["s"]);
    assert SameMessage(before.db.messages["m"], w.db.messages["m"]);
    assert SameMessage(before.db.messages["n"], w.db.messages["n"]);
  }

  lemma DeliveredReady(h: Hashes, max: nat, messages: Messages, w: World, id: string, r: string, d: string)
    requires max >= 1 && Reachable(h, max, w) && Drained(messages, w.db.messages) && WaitsFor(messages, id, d)
    requires id in w.db.messages && w.db.messages[id].aggregateId == d
    requires d in w.db.dispatches && w.db.dispatches[d].reservationId == r && w.db.settlements == map[]
    ensures Ready(w.db, r, d)
  {
    hide Reachable, DispatchOf, Inv, Replay.LogInv, Evidence.EvidenceInv, MachineInvariants.TablesOk;
    StatusesAgree(h, max, w, d);
    CompletedMeansSettledOnce(h, max, w, r);
    OneDispatch(h, max, w, r, d);
  }

  lemma OneDispatch(h: Hashes, max: nat, w: World, r: string, d: string)
    requires max >= 1 && Reachable(h, max, w) && d in w.db.dispatches && w.db.dispatches[d].reservationId == r
    ensures DispatchOf(w.db, r) == Some(d)
  {
    hide Reachable, DispatchOf, Replay.LogInv, Evidence.EvidenceInv, MachineInvariants.TablesOk;
    ReachableParts(h, max, w);
    assert DispatchesOk(w.db.dispatches, w.db.reservations, w.db.offers);
    hide Inv, DispatchInWindow;
  }

  // ------------------------------------------------------------- both bills

  lemma OneListed(readings: map<string, Reading>)
    requires readings.Keys == {"x"} && InWindow(readings["x"], "a", 0, 1) && readings["x"].intervalStart == 0
    ensures WindowReadings(readings, "a", 0, 1) == ["x"]
  {
    var rank := Ordering.Rank(0, 0, "x");
    var ranks := WindowRanks(readings, "a", 0, 1);
    assert ranks == {rank};
    assert Ordering.First(ranks) == rank;
    assert ranks - {rank} == {};
    assert Ordering.Listing(ranks) == [rank];
  }

  lemma MillionBill()
    ensures Decimals.Settle([1_000_000], 1_000_000) == Some(Bill(1_000_000, 1_000_000))
  {
    hide Decimals.Settle;
    SettleIsExact([1_000_000], 1_000_000);
    assert Total([1_000_000]) == 1_000_000 + Total([1_000_000][1..]);
    assert Pow10(6) == 1_000_000;
    Pow10Monotone(7, 18);
    assert Pow10(7) == 10_000_000;
  }

  lemma SameBills(db: Db, r: string, d: string)
    requires Rows(db) && Metered(db) && Ready(db, r, d) && ((r == "r" && d == "d") || (r == "s" && d == "e"))
    ensures BillFor(db, r) == Some((["x"], Bill(1_000_000, 1_000_000))) && MayBill(db, r, "analyst")
  {
    hide WindowReadings, Decimals.Settle, DispatchOf;
    OneListed(db.readings);
    MillionBill();
    assert Energies(db.readings, ["x"]) == [1_000_000];
  }

  /** A settlement under a key that no one has used. */
  lemma SettlesNow(h: Hashes, max: nat, w: World, r: string, key: string, id: string)
    returns (next: World, stamp: Stamp)
    requires max >= 1 && Reachable(h, max, w) && (SettleReservation, key) !in w.db.idempotency && !Blank(key)
    requires id !in w.db.settlements && MayBill(w.db, r, "analyst")
    ensures Reachable(h, max, next)
    ensures var o := SettleNew(h, w.db, r, ANALYST, key, h.request(SettleRequest(r, "analyst")), id, stamp);
            o.Done? && next.db == o.db
  {
    hide Reachable, SettleNew, Blank, MayBill, FreshEvent;
    stamp := FreshStamp(w.db, w.clock);
    SucceedsExactly(h, w.db, r, ANALYST, key, h.request(SettleRequest(r, "analyst")), id, stamp);
    var c := SettleCommand(r, ANALYST, key, id);
    next := Next(h, max, w, Api(c), stamp);
    ReachableNext(h, max, w, Api(c), stamp);
  }

  lemma KeysAfter(h: Hashes, db: Db, r: string, key: string, hash: string, id: string, stamp: Stamp)
    requires SettleNew(h, db, r, ANALYST, key, hash, id, stamp).Done? && db.settlements == map[]
    requires Unasked(db.idempotency)
    ensures var after := SettleNew(h, db, r, ANALYST, key, hash, id, stamp).db;
            && after.settlements.Keys == {id}
            && forall other :: (SettleReservation, other) in after.idempotency ==> other == key
  {
    hide WindowReadings, Energies, Decimals.Settle, DispatchOf, LogEvent;
  }

  /** Double payment happens: a reachable state has two settlements of different
      reservations that both list, and were both paid for, one and the same reading. */
  lemma ReadingPaidTwice(h: Hashes, max: nat)
    requires max >= 1
    ensures exists w, s, t, r ::
              && Reachable(h, max, w) && s in w.db.settlements && t in w.db.settlements && s != t
              && w.db.settlements[s].reservationId != w.db.settlements[t].reservationId
              && w.db.settlements[s].manifest.readingIds == [r] == w.db.settlements[t].manifest.readingIds
              && w.db.settlements[s].amount > 0 && w.db.settlements[t].amount > 0
  {
    hide Reachable, SettleNew, Blank, MayBill, BillFor, Rows, Metered, Ready, ShowsBill;
    KeysReal();
    var w := BothDelivered(h, max);
    SameBills(w.db, "r", "d");
    SameBills(w.db, "s", "e");
    var hash, hash' := h.request(SettleRequest("r", "analyst")), h.request(SettleRequest("s", "analyst"));
    RowsUnsettled(w.db);
    var first, stamp := SettlesNow(h, max, w, "r", "first", "p");
    KeysAfter(h, w.db, "r", "first", hash, "p", stamp);
    StillMayBill(h, w.db, hash, stamp, hash');
    var last, stamp' := SettlesNow(h, max, first, "s", "second", "q");
    SettlementsIndependent(h, w.db, "r", ANALYST, "first", hash, "p", stamp, "s", ANALYST, "second", hash', "q",
                           stamp');
    BothShown(h, w.db, hash, stamp, hash', stamp');
    assert Reachable(h, max, last) && "p" in last.db.settlements && "q" in last.db.settlements;
  }

  lemma RowsUnsettled(db: Db)
    requires Rows(db)
    ensures db.settlements == map[] && Unasked(db.idempotency) && (SettleReservation, "first") !in db.idempotency
  {
  }

  lemma StillMayBill(h: Hashes, db: Db, hash: string, stamp: Stamp, hash': string)
    requires SettleNew(h, db, "r", ANALYST, "first", hash, "p", stamp).Done? && db.settlements == map[]
    requires MayBill(db, "s", "analyst")
    ensures MayBill(SettleNew(h, db, "r", ANALYST, "first", hash, "p", stamp).db, "s", "analyst")
  {
    hide SettleNew, MayBill;
    var between := SettleNew(h, db, "r", ANALYST, "first", hash, "p", stamp).db;
    SucceedsExactly(h, db, "s", ANALYST, "second", hash', "q", stamp);
    SameWay(h, db, "r", ANALYST, "first", hash, "p", stamp, "s", ANALYST, "second", hash', "q", stamp);
    SucceedsExactly(h, between, "s", ANALYST, "second", hash', "q", stamp);
  }

  lemma BothShown(h: Hashes, db: Db, hash: string, stamp: Stamp, hash': string, stamp': Stamp)
    requires SettleNew(h, db, "r", ANALYST, "first", hash, "p", stamp).Done? && db.settlements == map[]
    requires var between := SettleNew(h, db, "r", ANALYST, "first", hash, "p", stamp).db;
             SettleNew(h, between, "s", ANALYST, "second", hash', "q", stamp').Done?
    requires BillFor(db, "r") == Some((["x"], Bill(1_000_000, 1_000_000))) == BillFor(db, "s")
    ensures var between := SettleNew(h, db, "r", ANALYST, "first", hash, "p", stamp).db;
            var last := SettleNew(h, between, "s", ANALYST, "second", hash', "q", stamp').db;
            && "p" in last.settlements && "q" in last.settlements
            && last.settlements["p"].reservationId == "r" && last.settlements["q"].reservationId == "s"
            && last.settlements["p"].manifest.readingIds == ["x"] == last.settlements["q"].manifest.readingIds
            && last.settlements["p"].amount == 1_000_000 == last.settlements["q"].amount
  {
    hide SettleNew, BillFor;
    var between := SettleNew(h, db, "r", ANALYST, "first", hash, "p", stamp).db;
    SettlementsIndependent(h, db, "r", ANALYST, "first", hash, "p", stamp, "s", ANALYST, "second", hash', "q", stamp');
    OneSettlement(h, db, "r", ANALYST, "first", hash, "p", stamp);
    OneSettlement(h, between, "s", ANALYST, "second", hash', "q", stamp');
  }
}
