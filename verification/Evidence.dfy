/** Settlement evidence: what a manifest pins stays recomputable in every later state. */
module Evidence {
  import opened Wrappers
  import opened Text
  import opened Decimals
  import opened Ordering
  import opened AuditChain
  import opened Domain
  import opened Coordination
  import opened Invariants
  import opened CommandPreservation
  import opened Replay

  /** The readings that a prefix of the log had recorded. */
  function ReadingsAt(db: Db, n: nat): map<string, Reading>
    requires n <= |db.log|
  {
    map x | x in db.readings && x in RecordedIn(db.log[..n]) :: db.readings[x]
  }

  /** The settlement's own event, at position n: same id, same hash, same figures; and
      the listed readings are the in-window readings of the asset recorded by then. */
  predicate EvidencedAt(db: Db, id: string, s: Settlement, n: nat) {
    && n < |db.log|
    && db.log[n].hashed.eventId == s.manifest.auditEventId
    && db.log[n].eventHash == s.manifest.auditHeadHash
    && db.log[n].hashed.payload
       == SettlementCalculated(id, s.reservationId, s.manifest.dispatchId, s.manifest.readingIds, s.manifest.delivered,
                               s.manifest.price, s.manifest.amount)
    && s.manifest.dispatchId in db.dispatches
    && s.manifest.readingIds == WindowReadings(ReadingsAt(db, n), s.manifest.assetId,
                                               db.dispatches[s.manifest.dispatchId].startsAt,
                                                   db.dispatches[s.manifest.dispatchId].endsAt)
  }

  /** The manifest hash is valid, it names the rows of the settlement, its readings still
      exist, and their energy and the price still give the stored figures. */
  predicate FiguresHold(h: Hashes, db: Db, id: string, s: Settlement) {
    && s.evidenceHash == h.manifest(s.manifest)
    && s.manifest.settlementId == id && s.manifest.reservationId == s.reservationId
    && s.manifest.delivered == FromColumn(s.delivered)
    && s.manifest.price == FromColumn(s.price)
    && s.manifest.amount == FromColumn(s.amount)
    && s.reservationId in db.reservations && db.reservations[s.reservationId].offerId == s.manifest.offerId
    && s.manifest.offerId in db.offers && db.offers[s.manifest.offerId].assetId == s.manifest.assetId
    && db.offers[s.manifest.offerId].price == s.price
    && s.manifest.dispatchId in db.dispatches && db.dispatches[s.manifest.dispatchId].reservationId == s.reservationId
    && (forall i :: 0 <= i < |s.manifest.readingIds| ==> s.manifest.readingIds[i] in db.readings)
    && Decimals.Settle(Energies(db.readings, s.manifest.readingIds), s.price) == Some(Bill(s.delivered, s.amount))
  }

  ghost predicate Evidenced(h: Hashes, db: Db, id: string, s: Settlement) {
    FiguresHold(h, db, id, s) && exists n: nat :: EvidencedAt(db, id, s, n)
  }

  ghost predicate EvidenceInv(h: Hashes, db: Db) {
    forall id :: id in db.settlements ==> Evidenced(h, db, id, db.settlements[id])
  }

  // ------------------------------------------------------------ what is paid

  /** An event before position n records the reading. */
  ghost predicate RecordedBy(log: seq<AuditEvent<Fact>>, n: nat, r: string)
    requires n <= |log|
  {
    exists i :: 0 <= i < n && log[i].hashed.payload.ReadingRecorded? && log[i].hashed.payload.readingId == r
  }

  lemma {:induction false} RecordedMeans(log: seq<AuditEvent<Fact>>, r: string)
    ensures r in RecordedIn(log) <==> RecordedBy(log, |log|, r)
    decreases |log|
  {
    if log != [] {
      var n := |log| - 1;
      RecordedMeans(log[..n], r);
      assert forall i :: 0 <= i < n ==> log[..n][i] == log[i];
      if RecordedBy(log, |log|, r) && !RecordedBy(log[..n], n, r) {
        var i :| 0 <= i < |log| && log[i].hashed.payload.ReadingRecorded? && log[i].hashed.payload.readingId == r;
        assert i == n;
      }
    }
  }

  /** A settlement lists a reading if and only if an event before position n recorded it, it
      is of the offered asset, it starts no earlier than the dispatch and it ends no later;
      and it lists them by start, then by id. */
  ghost predicate PaysWindow(db: Db, s: Settlement, n: nat) {
    && n <= |db.log| && s.reservationId in db.reservations && db.reservations[s.reservationId].offerId in db.offers
    && s.manifest.dispatchId in db.dispatches && db.dispatches[s.manifest.dispatchId].reservationId == s.reservationId
    && var assetId := db.offers[db.reservations[s.reservationId].offerId].assetId;
       var d, ids := db.dispatches[s.manifest.dispatchId], s.manifest.readingIds;
       && (forall r :: r in ids <==>
             && r in db.readings && RecordedBy(db.log, n, r)
             && db.readings[r].assetId == assetId && d.startsAt <= db.readings[r].intervalStart
             && db.readings[r].intervalEnd <= d.endsAt)
       && (forall i, j :: 0 <= i < j < |ids| ==>
             var a, b := db.readings[ids[i]].intervalStart, db.readings[ids[j]].intervalStart;
             a < b || (a == b && Less(ids[i], ids[j])))
  }

  /** A query over a window lists the readings inside it and no others. */
  lemma WindowExactly(readings: map<string, Reading>, assetId: string, startsAt: int, endsAt: int, r: string)
    ensures r in WindowReadings(readings, assetId, startsAt, endsAt) <==>
              && r in readings && readings[r].assetId == assetId
              && startsAt <= readings[r].intervalStart && readings[r].intervalEnd <= endsAt
  {
    var ranks := WindowRanks(readings, assetId, startsAt, endsAt);
    var l := Listing(ranks);
    ListingLaw(ranks);
    hide Listing;
    if r in readings && InWindow(readings[r], assetId, startsAt, endsAt) {
      var rank := Rank(readings[r].intervalStart, 0, r);
      assert rank in ranks && rank in l;
      var i :| 0 <= i < |l| && l[i] == rank;
      assert Ids(l)[i] == r;
    }
  }

  /** It lists them by start, then by id. */
  lemma WindowOrder(readings: map<string, Reading>, assetId: string, startsAt: int, endsAt: int, i: nat, j: nat)
    requires i < j < |WindowReadings(readings, assetId, startsAt, endsAt)|
    ensures var ids := WindowReadings(readings, assetId, startsAt, endsAt);
            && ids[i] in readings && ids[j] in readings
            && var a, b := readings[ids[i]].intervalStart, readings[ids[j]].intervalStart;
               a < b || (a == b && Less(ids[i], ids[j]))
  {
    var ranks := WindowRanks(readings, assetId, startsAt, endsAt);
    var l := Listing(ranks);
    ListingLaw(ranks);
    hide Listing;
    assert l[i] in ranks && l[j] in ranks && Before(l[i], l[j]);
    assert Ids(l)[i] == l[i].id && Ids(l)[j] == l[j].id;
  }

  lemma EvidencedPays(h: Hashes, db: Db, id: string, s: Settlement, n: nat)
    requires FiguresHold(h, db, id, s) && EvidencedAt(db, id, s, n)
    ensures PaysWindow(db, s, n)
  {
    hide Decimals.Settle, WindowReadings, RecordedIn, RecordedBy;
    var d := db.dispatches[s.manifest.dispatchId];
    var ids := s.manifest.readingIds;
    var known := ReadingsAt(db, n);
    forall r ensures r in ids <==>
                       && r in db.readings && RecordedBy(db.log, n, r) && db.readings[r].assetId == s.manifest.assetId
                       && d.startsAt <= db.readings[r].intervalStart && db.readings[r].intervalEnd <= d.endsAt
    {
      WindowExactly(known, s.manifest.assetId, d.startsAt, d.endsAt, r);
      RecordedMeans(db.log[..n], r);
      RecordedByPrefix(db.log, n, r);
    }
    forall i, j | 0 <= i < j < |ids|
      ensures ids[i] in db.readings && ids[j] in db.readings
      ensures var a, b := db.readings[ids[i]].intervalStart, db.readings[ids[j]].intervalStart;
              a < b || (a == b && Less(ids[i], ids[j]))
    {
      WindowOrder(known, s.manifest.assetId, d.startsAt, d.endsAt, i, j);
    }
  }

  lemma RecordedByPrefix(log: seq<AuditEvent<Fact>>, n: nat, r: string)
    requires n <= |log|
    ensures RecordedBy(log[..n], n, r) <==> RecordedBy(log, n, r)
  {
    if i :| 0 <= i < n && log[i].hashed.payload.ReadingRecorded? && log[i].hashed.payload.readingId == r {
      assert log[..n][i] == log[i];
    }
  }

  // ------------------------------------------------------------ what stays

  lemma {:induction false} RecordedPrefix(log: seq<AuditEvent<Fact>>, n: nat)
    requires n <= |log|
    ensures RecordedIn(log[..n]) <= RecordedIn(log)
    decreases |log|
  {
    if n < |log| {
      RecordedPrefix(log[..|log| - 1], n);
      assert log[..|log| - 1][..n] == log[..n];
    } else {
      assert log[..n] == log;
    }
  }

  lemma ReadingsAtKept(a: Db, b: Db, n: nat)
    requires Extends(a, b) && RecordedIn(a.log) == a.readings.Keys && n <= |a.log|
    ensures n <= |b.log| && ReadingsAt(a, n) == ReadingsAt(b, n)
  {
    assert b.log[..n] == a.log[..n];
    RecordedPrefix(a.log, n);
    hide RecordedIn;
  }

  lemma EvidencedKept(h: Hashes, a: Db, b: Db, id: string, s: Settlement)
    requires Extends(a, b) && RecordedIn(a.log) == a.readings.Keys
    requires Evidenced(h, a, id, s)
    ensures Evidenced(h, b, id, s)
  {
    hide RecordedIn, WindowReadings, Decimals.Settle, ReadingsAt;
    var n: nat :| EvidencedAt(a, id, s, n);
    ReadingsAtKept(a, b, n);
    assert b.log[n] == a.log[n];
    assert SameDispatch(a.dispatches[s.manifest.dispatchId], b.dispatches[s.manifest.dispatchId]);
    assert EvidencedAt(b, id, s, n);
    FiguresKept(h, a, b, id, s);
  }

  lemma FiguresKept(h: Hashes, a: Db, b: Db, id: string, s: Settlement)
    requires Extends(a, b) && FiguresHold(h, a, id, s)
    ensures FiguresHold(h, b, id, s)
  {
    hide Decimals.Settle;
    assert SameDispatch(a.dispatches[s.manifest.dispatchId], b.dispatches[s.manifest.dispatchId]);
    assert SameReservation(a.reservations[s.reservationId], b.reservations[s.reservationId]);
    assert SameOffer(a.offers[s.manifest.offerId], b.offers[s.manifest.offerId]);
    assert Energies(a.readings, s.manifest.readingIds) == Energies(b.readings, s.manifest.readingIds);
  }

  /** Transactions that add no settlement keep all evidence. */
  lemma EvidenceKept(h: Hashes, a: Db, b: Db)
    requires Extends(a, b) && LogInv(h, a) && EvidenceInv(h, a)
    requires a.settlements == b.settlements
    ensures EvidenceInv(h, b)
  {
    hide RecordedIn, Evidenced, Extends;
    forall id | id in b.settlements ensures Evidenced(h, b, id, b.settlements[id]) {
      EvidencedKept(h, a, b, id, a.settlements[id]);
    }
  }

  /** A new settlement is evidenced by the event written with it. */
  lemma SettledEvidenced(h: Hashes, db: Db, reservationId: string, dispatchId: string, readingIds: seq<string>,
                         bill: Bill, actor: Actor, key: string, requestHash: string, settlementId: string, stamp: Stamp)
    requires RecordedIn(db.log) == db.readings.Keys
    requires MaySettle(db, reservationId, dispatchId, readingIds, bill, actor.actorId, key)
    ensures var after := Settled(h, db, reservationId, dispatchId, readingIds, bill, actor, key, requestHash,
                                 settlementId, stamp);
            Evidenced(h, after, settlementId, after.settlements[settlementId])
  {
    hide RecordedIn, WindowReadings, Decimals.Settle, Blank;
    var after := Settled(h, db, reservationId, dispatchId, readingIds, bill, actor, key, requestHash, settlementId,
                         stamp);
    var s := after.settlements[settlementId];
    var n := |db.log|;
    assert after.log[..n] == db.log;
    assert ReadingsAt(after, n) == db.readings;
    assert EvidencedAt(after, settlementId, s, n);
    assert FiguresHold(h, after, settlementId, s);
  }

  lemma SettleEvidence(h: Hashes, max: nat, db: Db, reservationId: string, actor: Actor, key: string,
                       settlementId: string, stamp: Stamp)
    requires Inv(max, db) && LogInv(h, db) && EvidenceInv(h, db) && settlementId !in db.settlements
    ensures var r := Coordination.Settle(h, db, reservationId, actor, key, settlementId, stamp);
            r.Done? ==> EvidenceInv(h, r.db)
  {
    hide Inv, Blank, Settled, WindowReadings, Energies, Decimals.Settle, Coordination.Settle, Evidenced, RecordedIn,
      Extends;
    var r := Coordination.Settle(h, db, reservationId, actor, key, settlementId, stamp);
    SettleShape(h, max, db, reservationId, actor, key, settlementId, stamp);
    if r.Done? && r.db != db {
      var hash := h.request(SettleRequest(reservationId, actor.actorId));
      var dispatchId, readingIds, bill :|
        && MaySettle(db, reservationId, dispatchId, readingIds, bill, actor.actorId, key)
        && r.db == Settled(h, db, reservationId, dispatchId, readingIds, bill, actor, key, hash, settlementId, stamp);
      SettledEvidenced(h, db, reservationId, dispatchId, readingIds, bill, actor, key, hash, settlementId, stamp);
      SettleKeeps(h, max, db, reservationId, actor, key, settlementId, stamp);
      SettledAdds(h, db, reservationId, dispatchId, readingIds, bill, actor, key, hash, settlementId, stamp);
      forall id | id in r.db.settlements ensures Evidenced(h, r.db, id, r.db.settlements[id]) {
        if id != settlementId { EvidencedKept(h, db, r.db, id, db.settlements[id]); }
      }
    }
  }

  lemma SettledAdds(h: Hashes, db: Db, reservationId: string, dispatchId: string, readingIds: seq<string>, bill: Bill,
                    actor: Actor, key: string, requestHash: string, settlementId: string, stamp: Stamp)
    requires reservationId in db.reservations && db.reservations[reservationId].offerId in db.offers
    requires dispatchId in db.dispatches
    ensures var after := Settled(h, db, reservationId, dispatchId, readingIds, bill, actor, key, requestHash,
                                 settlementId, stamp);
            forall id :: id in after.settlements && id != settlementId ==>
                id in db.settlements && after.settlements[id] == db.settlements[id]
  {
  }
}
