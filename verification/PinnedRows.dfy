/** A checkpoint pins the tables: every row is what the log stores of it, so a later log that
    carries the checkpointed head has the same rows. */
module PinnedRows {
  import opened Text
  import opened Decimals
  import opened CanonicalJson
  import opened AuditChain
  import opened WireForms
  import opened Checkpoints
  import opened Domain
  import opened EventForms
  import opened EvidenceForms
  import opened Invariants
  import opened Replay
  import opened Machine
  import opened Guarantees
  import opened PinnedState
  import opened Origins

  // ------------------------------------------------------- stored fact fields

  lemma DecimalField(f: Fact, g: Fact, i: nat)
    requires SameNames(FactItems(f), FactItems(g)) && StoredFact(f) == StoredFact(g)
    requires i < |FactItems(f)| && FactItems(f)[i].value.PyDecimal? && FactItems(g)[i].value.PyDecimal?
    ensures Plain(FactItems(f)[i].value.d) == Plain(FactItems(g)[i].value.d)
  {
    FactNamesDistinct(f);
    hide FactItems, FixedText, ParseDecimal, Plain;
    FieldsAgree(FactItems(f), FactItems(g));
    assert Normalize(FactItems(f)[i].value) == Normalize(FactItems(g)[i].value);
    FixedRoundTrip(FactItems(f)[i].value.d);
    FixedRoundTrip(FactItems(g)[i].value.d);
  }

  lemma TimeField(f: Fact, g: Fact, i: nat)
    requires SameNames(FactItems(f), FactItems(g)) && StoredFact(f) == StoredFact(g)
    requires i < |FactItems(f)| && FactItems(f)[i].value.PyTime? && FactItems(g)[i].value.PyTime?
    ensures FactItems(f)[i].value.t.instant == FactItems(g)[i].value.t.instant
  {
    FactNamesDistinct(f);
    hide FactItems, IsoText, ParseIso;
    FieldsAgree(FactItems(f), FactItems(g));
    assert Normalize(FactItems(f)[i].value) == Normalize(FactItems(g)[i].value);
    IsoRoundTrip(FactItems(f)[i].value.t.instant);
    IsoRoundTrip(FactItems(g)[i].value.t.instant);
  }

  lemma ListField(f: Fact, g: Fact, i: nat, a: seq<string>, b: seq<string>)
    requires SameNames(FactItems(f), FactItems(g)) && StoredFact(f) == StoredFact(g)
    requires i < |FactItems(f)|
    requires FactItems(f)[i].value == PyList(Texts(a)) && FactItems(g)[i].value == PyList(Texts(b))
    ensures a == b
  {
    FactNamesDistinct(f);
    hide FactItems;
    FieldsAgree(FactItems(f), FactItems(g));
    assert Normalize(FactItems(f)[i].value) == Normalize(FactItems(g)[i].value);
    TextListInjective(a, b);
  }

  lemma TypeTexts(a: AssetType, b: AssetType, x: FlexDirection, y: FlexDirection)
    ensures AssetTypeText(a) == AssetTypeText(b) ==> a == b
    ensures DirectionText(x) == DirectionText(y) ==> x == y
  {
    assert |"battery"| == 7 && |"ev_charger"| == 10 && |"heat_pump"| == 9 && |"industrial_load"| == 15;
    assert "increase"[0] == 'i' && "decrease"[0] == 'd';
  }

  /** Facts that tell the same rows: equal up to the exponents of figures and the offsets of
      times. */
  predicate SameTold(f: Fact, g: Fact) {
    match f
    case AssetRegistered(id, externalId, assetType, capacity, location) =>
      && g.AssetRegistered? && g.assetId == id && g.externalId == externalId && g.assetType == assetType
      && Plain(g.capacity) == Plain(capacity) && g.locationCode == location
    case OfferCreated(id, assetId, direction, quantity, price, start, end) =>
      && g.OfferCreated? && g.offerId == id && g.assetId == assetId && g.direction == direction
      && Plain(g.quantity) == Plain(quantity) && Plain(g.price) == Plain(price)
      && g.windowStart.instant == start.instant && g.windowEnd.instant == end.instant
    case OfferTaken(id, offerId, quantity) =>
      g.OfferTaken? && g.reservationId == id && g.offerId == offerId && Plain(g.quantity) == Plain(quantity)
    case DispatchQueued(id, reservationId, target, start, end, messageId) =>
      && g.DispatchQueued? && g.dispatchId == id && g.reservationId == reservationId && g.messageId == messageId
      && Plain(g.target) == Plain(target) && g.startsAt.instant == start.instant && g.endsAt.instant == end.instant
    case ReadingRecorded(id, assetId, start, end, energy, source, fingerprint) =>
      && g.ReadingRecorded? && g.readingId == id && g.assetId == assetId && g.source == source
      && Plain(g.energy) == Plain(energy) && g.intervalStart.instant == start.instant
      && g.intervalEnd.instant == end.instant && g.fingerprint == fingerprint
    case SettlementCalculated(id, reservationId, dispatchId, readingIds, delivered, price, amount) =>
      && g.SettlementCalculated? && g.settlementId == id && g.reservationId == reservationId
      && g.dispatchId == dispatchId && g.readingIds == readingIds && Plain(g.delivered) == Plain(delivered)
      && Plain(g.price) == Plain(price) && Plain(g.amount) == Plain(amount)
    case _ => true
  }

  /** What is stored of an event decides the rows that it tells of. */
  lemma StoredDecidesTold(f: Fact, g: Fact)
    requires EventType(f) == EventType(g) && AggregateId(f) == AggregateId(g) && StoredFact(f) == StoredFact(g)
    ensures SameTold(f, g)
  {
    hide StoredFact, EventType, FactItems, SameTold;
    TypesDiffer(f, g);
    match f
    case AssetRegistered(_, _, _, _, _) => AssetFields(f, g);
    case OfferCreated(_, _, _, _, _, _, _) => OfferFields(f, g);
    case OfferTaken(_, _, _) => TakenFields(f, g);
    case DispatchQueued(_, _, _, _, _, _) => QueuedFields(f, g);
    case ReadingRecorded(_, _, _, _, _, _, _) => ReadingFields(f, g);
    case SettlementCalculated(_, _, _, _, _, _, _) => SettlementFields(f, g);
    case _ => assert SameTold(f, g) by { NothingTold(f, g); }
  }

  lemma NothingTold(f: Fact, g: Fact)
    requires f.DispatchPublished? || f.DeliveryFailed? || f.RedriveAuthorized?
    ensures SameTold(f, g)
  {
  }

  ghost predicate StoredAlike(f: Fact, g: Fact) {
    SameNames(FactItems(f), FactItems(g)) && StoredFact(f) == StoredFact(g) && AggregateId(f) == AggregateId(g)
  }

  lemma AssetFields(f: Fact, g: Fact)
    requires StoredAlike(f, g) && f.AssetRegistered? && g.AssetRegistered?
    ensures SameTold(f, g)
  {
    hide StoredFact, Plain;
    TextField(f, g, 0); TextField(f, g, 1); DecimalField(f, g, 2); TextField(f, g, 3);
    TypeTexts(f.assetType, g.assetType, Increase, Increase);
    hide AssetTypeText;
  }

  lemma OfferFields(f: Fact, g: Fact)
    requires StoredAlike(f, g) && f.OfferCreated? && g.OfferCreated?
    ensures SameTold(f, g)
  {
    hide StoredFact, Plain;
    TextField(f, g, 0); TextField(f, g, 1); DecimalField(f, g, 2); DecimalField(f, g, 3);
    TimeField(f, g, 4); TimeField(f, g, 5);
    TypeTexts(Battery, Battery, f.direction, g.direction);
    hide DirectionText;
  }

  lemma TakenFields(f: Fact, g: Fact)
    requires StoredAlike(f, g) && f.OfferTaken? && g.OfferTaken?
    ensures SameTold(f, g)
  {
    hide StoredFact, Plain;
    TextField(f, g, 0); DecimalField(f, g, 1);
  }

  lemma QueuedFields(f: Fact, g: Fact)
    requires StoredAlike(f, g) && f.DispatchQueued? && g.DispatchQueued?
    ensures SameTold(f, g)
  {
    hide StoredFact, Plain;
    TextField(f, g, 0); DecimalField(f, g, 1); TimeField(f, g, 2); TimeField(f, g, 3); TextField(f, g, 4);
  }

  lemma ReadingFields(f: Fact, g: Fact)
    requires StoredAlike(f, g) && f.ReadingRecorded? && g.ReadingRecorded?
    ensures SameTold(f, g)
  {
    hide StoredFact, Plain;
    TextField(f, g, 0); TimeField(f, g, 1); TimeField(f, g, 2); DecimalField(f, g, 3); TextField(f, g, 4);
    TextField(f, g, 5);
  }

  lemma SettlementFields(f: Fact, g: Fact)
    requires StoredAlike(f, g) && f.SettlementCalculated? && g.SettlementCalculated?
    ensures SameTold(f, g)
  {
    hide StoredFact, Plain, Texts;
    TextField(f, g, 0); TextField(f, g, 1); ListField(f, g, 2, f.readingIds, g.readingIds);
    DecimalField(f, g, 3); DecimalField(f, g, 4); DecimalField(f, g, 5);
  }

  // ---------------------------------------------------------------- pinned rows

  lemma SameColumn(x: int, c: Decimal, y: int, d: Decimal)
    requires Column(x, c) && Column(y, d) && Plain(c) == Plain(d)
    ensures x == y
  {
    hide Plain, Micro, SixPlaces;
    PlainKeepsValue(c);
    PlainKeepsValue(d);
  }

  /** Two events with the same stored form and the same hash. */
  predicate SameStored(e: AuditEvent<Fact>, g: AuditEvent<Fact>) {
    StoredMaterial(e.hashed) == StoredMaterial(g.hashed) && e.eventHash == g.eventHash
  }

  /** The rows of one database are in another with the same write-once columns. */
  predicate RowsKept(a: Db, b: Db) {
    && (forall x :: x in a.assets ==> x in b.assets && b.assets[x] == a.assets[x])
    && (forall x :: x in a.offers ==> x in b.offers && SameOffer(a.offers[x], b.offers[x]))
    && (forall x :: x in a.reservations ==>
          x in b.reservations && SameReservation(a.reservations[x], b.reservations[x]))
    && (forall x :: x in a.dispatches ==> x in b.dispatches && SameDispatch(a.dispatches[x], b.dispatches[x]))
    && (forall x :: x in a.readings ==> x in b.readings && b.readings[x] == a.readings[x])
  }

  predicate SettlementsKept(a: Db, b: Db) {
    forall x :: x in a.settlements ==> x in b.settlements && b.settlements[x] == a.settlements[x]
  }

  lemma FactsAlike(e: AuditEvent<Fact>, g: AuditEvent<Fact>)
    requires SameStored(e, g) && Labelled(e) && Labelled(g)
    ensures SameTold(e.hashed.payload, g.hashed.payload)
    ensures e.hashed.actorId == g.hashed.actorId && e.hashed.eventId == g.hashed.eventId
  {
    hide StoredFact, EventType, AggregateId, SameTold;
    StoredDecidesTold(e.hashed.payload, g.hashed.payload);
  }

  lemma AssetPinned(a: Db, b: Db, e: AuditEvent<Fact>, g: AuditEvent<Fact>)
    requires SameStored(e, g) && Labelled(e) && Labelled(g) && e.hashed.payload.AssetRegistered?
    requires AssetTold(a, e) && (g.hashed.payload.AssetRegistered? ==> AssetTold(b, g))
    ensures var x := e.hashed.payload.assetId; x in a.assets && x in b.assets && b.assets[x] == a.assets[x]
  {
    FactsAlike(e, g);
    hide SameStored, Labelled, Column, Plain;
    var x := e.hashed.payload.assetId;
    SameColumn(a.assets[x].capacity, e.hashed.payload.capacity, b.assets[x].capacity, g.hashed.payload.capacity);
  }

  lemma OfferPinned(a: Db, b: Db, e: AuditEvent<Fact>, g: AuditEvent<Fact>)
    requires SameStored(e, g) && Labelled(e) && Labelled(g) && e.hashed.payload.OfferCreated?
    requires OfferTold(a, e) && (g.hashed.payload.OfferCreated? ==> OfferTold(b, g))
    ensures var x := e.hashed.payload.offerId; x in a.offers && x in b.offers && SameOffer(a.offers[x], b.offers[x])
  {
    FactsAlike(e, g);
    hide SameStored, Labelled, Column, Plain;
    var x := e.hashed.payload.offerId;
    SameColumn(a.offers[x].quantity, e.hashed.payload.quantity, b.offers[x].quantity, g.hashed.payload.quantity);
    SameColumn(a.offers[x].price, e.hashed.payload.price, b.offers[x].price, g.hashed.payload.price);
  }

  lemma ReservationPinned(h: Hashes, a: Db, b: Db, e: AuditEvent<Fact>, g: AuditEvent<Fact>)
    requires SameStored(e, g) && Labelled(e) && Labelled(g) && e.hashed.payload.OfferTaken?
    requires ReservationTold(h, a, e) && (g.hashed.payload.OfferTaken? ==> ReservationTold(h, b, g))
    ensures var x := e.hashed.payload.reservationId;
            x in a.reservations && x in b.reservations && SameReservation(a.reservations[x], b.reservations[x])
  {
    FactsAlike(e, g);
    hide SameStored, Labelled, Column, Plain;
    var x := e.hashed.payload.reservationId;
    SameColumn(a.reservations[x].quantity, e.hashed.payload.quantity, b.reservations[x].quantity,
               g.hashed.payload.quantity);
  }

  lemma DispatchPinned(h: Hashes, a: Db, b: Db, e: AuditEvent<Fact>, g: AuditEvent<Fact>)
    requires SameStored(e, g) && Labelled(e) && Labelled(g) && e.hashed.payload.DispatchQueued?
    requires DispatchTold(h, a, e) && (g.hashed.payload.DispatchQueued? ==> DispatchTold(h, b, g))
    ensures var x := e.hashed.payload.dispatchId;
            x in a.dispatches && x in b.dispatches && SameDispatch(a.dispatches[x], b.dispatches[x])
  {
    FactsAlike(e, g);
    hide SameStored, Labelled, Column, Plain;
    var x := e.hashed.payload.dispatchId;
    SameColumn(a.dispatches[x].target, e.hashed.payload.target, b.dispatches[x].target, g.hashed.payload.target);
  }

  lemma ReadingPinned(h: Hashes, a: Db, b: Db, e: AuditEvent<Fact>, g: AuditEvent<Fact>)
    requires SameStored(e, g) && Labelled(e) && Labelled(g) && e.hashed.payload.ReadingRecorded?
    requires ReadingTold(h, a, e) && (g.hashed.payload.ReadingRecorded? ==> ReadingTold(h, b, g))
    ensures var x := e.hashed.payload.readingId; x in a.readings && x in b.readings && b.readings[x] == a.readings[x]
  {
    FactsAlike(e, g);
    hide SameStored, Labelled, Column, Plain;
    var x := e.hashed.payload.readingId;
    SameColumn(a.readings[x].energy, e.hashed.payload.energy, b.readings[x].energy, g.hashed.payload.energy);
  }

  lemma SettlementPinned(h: Hashes, a: Db, b: Db, e: AuditEvent<Fact>, g: AuditEvent<Fact>)
    requires SameStored(e, g) && Labelled(e) && Labelled(g) && e.hashed.payload.SettlementCalculated?
    requires SettlementTold(h, a, e) && (g.hashed.payload.SettlementCalculated? ==> SettlementTold(h, b, g))
    requires RowsKept(a, b)
    ensures var x := e.hashed.payload.settlementId;
            x in a.settlements && x in b.settlements && b.settlements[x] == a.settlements[x]
  {
    FactsAlike(e, g);
    hide SameStored, Labelled;
    var f := e.hashed.payload;
    assert SameReservation(a.reservations[f.reservationId], b.reservations[f.reservationId]);
    var offerId := a.reservations[f.reservationId].offerId;
    assert SameOffer(a.offers[offerId], b.offers[offerId]);
  }

  /** A log whose beginning stores what another log stores tells of the rows of the other. */
  ghost predicate BeginsAlike(log: seq<AuditEvent<Fact>>, later: seq<AuditEvent<Fact>>) {
    |log| <= |later| && forall i :: 0 <= i < |log| ==> SameStored(log[i], later[i])
  }

  ghost predicate TellsRows(h: Hashes, db: Db) {
    && AllLabelled(db.log) && (forall i :: 0 <= i < |db.log| ==> Told(h, db, db.log[i]))
    && (forall r :: HasRow(db, r) <==> Made(db.log, r))
  }

  lemma MarketRowsPinned(h: Hashes, a: Db, b: Db)
    requires TellsRows(h, a) && TellsRows(h, b) && BeginsAlike(a.log, b.log)
    ensures forall x :: x in a.assets ==> x in b.assets && b.assets[x] == a.assets[x]
    ensures forall x :: x in a.offers ==> x in b.offers && SameOffer(a.offers[x], b.offers[x])
    ensures forall x :: x in a.reservations ==>
              x in b.reservations && SameReservation(a.reservations[x], b.reservations[x])
  {
    hide SameStored, Labelled, SameOffer, SameReservation, AssetTold, OfferTold, ReservationTold, DispatchTold,
      ReadingTold, SettlementTold;
    forall x | x in a.assets ensures x in b.assets && b.assets[x] == a.assets[x] {
      assert HasRow(a, AssetRow(x));
      var i :| 0 <= i < |a.log| && AssetRow(x) in Makes(a.log[i]);
      AssetPinned(a, b, a.log[i], b.log[i]);
    }
    forall x | x in a.offers ensures x in b.offers && SameOffer(a.offers[x], b.offers[x]) {
      assert HasRow(a, OfferRow(x));
      var i :| 0 <= i < |a.log| && OfferRow(x) in Makes(a.log[i]);
      OfferPinned(a, b, a.log[i], b.log[i]);
    }
    forall x | x in a.reservations
      ensures x in b.reservations && SameReservation(a.reservations[x], b.reservations[x])
    {
      assert HasRow(a, ReservationRow(x));
      var i :| 0 <= i < |a.log| && ReservationRow(x) in Makes(a.log[i]);
      ReservationPinned(h, a, b, a.log[i], b.log[i]);
    }
  }

  lemma DeliveryRowsPinned(h: Hashes, a: Db, b: Db)
    requires TellsRows(h, a) && TellsRows(h, b) && BeginsAlike(a.log, b.log)
    ensures forall x :: x in a.dispatches ==> x in b.dispatches && SameDispatch(a.dispatches[x], b.dispatches[x])
    ensures forall x :: x in a.readings ==> x in b.readings && b.readings[x] == a.readings[x]
  {
    hide SameStored, Labelled, SameDispatch, AssetTold, OfferTold, ReservationTold, DispatchTold, ReadingTold,
      SettlementTold;
    forall x | x in a.dispatches ensures x in b.dispatches && SameDispatch(a.dispatches[x], b.dispatches[x]) {
      assert HasRow(a, DispatchRow(x));
      var i :| 0 <= i < |a.log| && DispatchRow(x) in Makes(a.log[i]);
      DispatchPinned(h, a, b, a.log[i], b.log[i]);
    }
    forall x | x in a.readings ensures x in b.readings && b.readings[x] == a.readings[x] {
      assert HasRow(a, ReadingRow(x));
      var i :| 0 <= i < |a.log| && ReadingRow(x) in Makes(a.log[i]);
      ReadingPinned(h, a, b, a.log[i], b.log[i]);
    }
  }

  lemma SettlementRowsPinned(h: Hashes, a: Db, b: Db)
    requires TellsRows(h, a) && TellsRows(h, b) && BeginsAlike(a.log, b.log) && RowsKept(a, b)
    ensures SettlementsKept(a, b)
  {
    hide SameStored, Labelled, RowsKept, AssetTold, OfferTold, ReservationTold, DispatchTold, ReadingTold,
      SettlementTold;
    forall x | x in a.settlements ensures x in b.settlements && b.settlements[x] == a.settlements[x] {
      assert HasRow(a, SettlementRow(x));
      var i :| 0 <= i < |a.log| && SettlementRow(x) in Makes(a.log[i]);
      SettlementPinned(h, a, b, a.log[i], b.log[i]);
    }
  }

  lemma RowsPinned(h: Hashes, a: Db, b: Db)
    requires TellsRows(h, a) && TellsRows(h, b) && BeginsAlike(a.log, b.log)
    ensures RowsKept(a, b) && SettlementsKept(a, b)
  {
    MarketRowsPinned(h, a, b);
    DeliveryRowsPinned(h, a, b);
    hide TellsRows, BeginsAlike, SameOffer, SameReservation, SameDispatch;
    SettlementRowsPinned(h, a, b);
  }

  lemma ReachableTells(h: Hashes, max: nat, w: World)
    requires max >= 1 && Reachable(h, max, w)
    ensures TellsRows(h, w.db)
  {
    hide Reachable, Told, HasRow, Made, Labelled, OnceEach, InOrder;
    LogTellsRows(h, max, w);
    ReachableLabelled(h, max, w);
  }

  /** A checkpoint of one state pins its tables: a state, reached perhaps by another run,
      whose log carries the checkpointed head at the checkpointed count, has every asset,
      offer, reservation, dispatch, reading and settlement of it, alike in all columns that
      are written once; with just that count it has no others, and their statuses agree. */
  lemma CheckpointPinsRows(h: Hashes, sha: string -> string, max: nat, w: World, later: World, signer: Signer,
                           issuedAt: Zoned)
    requires max >= 1 && Reachable(h, max, w) && Reachable(h, max, later) && Ideal(sha) && HashesStored(h, sha)
    requires CreateCheckpoint(Verdict(h.event, w.db.log), signer, issuedAt).Success?
    requires var c := CreateCheckpoint(Verdict(h.event, w.db.log), signer, issuedAt).value;
             c.eventCount <= |later.db.log| && HeadHash(later.db.log[..c.eventCount]) == c.headHash
    ensures RowsKept(w.db, later.db) && SettlementsKept(w.db, later.db)
    ensures |later.db.log| == |w.db.log| ==>
              && later.db.assets == w.db.assets && later.db.offers == w.db.offers
              && later.db.reservations == w.db.reservations && later.db.readings == w.db.readings
              && later.db.settlements == w.db.settlements
              && later.db.dispatches.Keys == w.db.dispatches.Keys
              && forall x :: x in w.db.dispatches ==>
                   SameDispatch(w.db.dispatches[x], later.db.dispatches[x])
                   && later.db.dispatches[x].status == w.db.dispatches[x].status
  {
    hide Reachable, Ideal, HashesStored, Statuses, Replayed, Lawful, LivesSo, History, CanonicalText, SigningPayload,
      FirstBroken, RowsKept, SettlementsKept, TellsRows, SameStored, StoredMaterial;
    LogTellsState(h, max, w);
    LogTellsState(h, max, later);
    var log := w.db.log;
    VerdictsValid(h, log);
    VerdictsValid(h, later.db.log);
    SameHeadSameStored(h, sha, log, later.db.log);
    ReachableTells(h, max, w);
    ReachableTells(h, max, later);
    assert BeginsAlike(log, later.db.log) by { StoredBegins(log, later.db.log); }
    RowsPinned(h, w.db, later.db);
    if |later.db.log| == |log| {
      assert BeginsAlike(later.db.log, log) by { StoredBegins(later.db.log, log); }
      RowsPinned(h, later.db, w.db);
      CheckpointPinsState(h, sha, max, w, later, signer, issuedAt);
      assert later.db.log[..|log|] == later.db.log;
      SameTables(w.db, later.db);
    }
  }

  lemma StoredBegins(log: seq<AuditEvent<Fact>>, later: seq<AuditEvent<Fact>>)
    requires |log| <= |later|
    requires forall i :: 0 <= i < |log| ==>
               && StoredMaterial(log[i].hashed) == StoredMaterial(later[i].hashed)
               && log[i].eventHash == later[i].eventHash
    ensures BeginsAlike(log, later)
  {
    hide StoredMaterial;
  }

  lemma SameTables(a: Db, b: Db)
    requires RowsKept(a, b) && RowsKept(b, a) && SettlementsKept(a, b) && SettlementsKept(b, a)
    requires Statuses(a) == Statuses(b)
    ensures b.assets == a.assets && b.offers == a.offers && b.reservations == a.reservations
    ensures b.readings == a.readings && b.settlements == a.settlements
    ensures b.dispatches.Keys == a.dispatches.Keys
    ensures forall x :: x in a.dispatches ==>
              SameDispatch(a.dispatches[x], b.dispatches[x]) && b.dispatches[x].status == a.dispatches[x].status
  {
    StatusesGive(a, b);
    hide Statuses, SameDispatch;
  }

  lemma StatusesGive(a: Db, b: Db)
    requires Statuses(a) == Statuses(b)
    ensures a.offers.Keys == b.offers.Keys && a.reservations.Keys == b.reservations.Keys
    ensures a.dispatches.Keys == b.dispatches.Keys
    ensures forall x :: x in a.offers ==> b.offers[x].status == a.offers[x].status
    ensures forall x :: x in a.reservations ==> b.reservations[x].status == a.reservations[x].status
    ensures forall x :: x in a.dispatches ==> b.dispatches[x].status == a.dispatches[x].status
  {
    assert OfferBook(a.offers) == OfferBook(b.offers) && ReservationBook(a.reservations)
        == ReservationBook(b.reservations) && DispatchBook(a.dispatches) == DispatchBook(b.dispatches);
    assert OfferBook(a.offers).Keys == a.offers.Keys && OfferBook(b.offers).Keys == b.offers.Keys;
    assert ReservationBook(a.reservations).Keys == a.reservations.Keys;
    assert ReservationBook(b.reservations).Keys == b.reservations.Keys;
    assert DispatchBook(a.dispatches).Keys == a.dispatches.Keys && DispatchBook(b.dispatches).Keys == b.dispatches.Keys;
    forall x | x in a.offers ensures b.offers[x].status == a.offers[x].status {
      assert OfferBook(a.offers)[x] == OfferBook(b.offers)[x];
    }
    forall x | x in a.reservations ensures b.reservations[x].status == a.reservations[x].status {
      assert ReservationBook(a.reservations)[x] == ReservationBook(b.reservations)[x];
    }
    forall x | x in a.dispatches ensures b.dispatches[x].status == a.dispatches[x].status {
      assert DispatchBook(a.dispatches)[x] == DispatchBook(b.dispatches)[x];
    }
  }
}
