/** Meter readings are recorded once: what their fingerprints mean over whole runs. */
module Fingerprints {
  import opened Decimals
  import opened Domain
  import opened Outbox
  import opened Coordination
  import opened Invariants
  import opened Machine
  import opened MachineInvariants
  import opened Guarantees
  import opened Runs
  import opened Payments
  import opened CanonicalJson
  import opened WireForms
  import opened RequestForms

  // -------------------------------------------------------------- one row each

  predicate OneRowEach(readings: map<string, Reading>) {
    forall x, y :: x in readings && y in readings && readings[x].fingerprint == readings[y].fingerprint ==> x == y
  }

  /** An actor who may record a reading of the asset: the system, or its owner. */
  predicate MayRecord(db: Db, assetId: string, actor: Actor) {
    assetId in db.assets
    && (actor.role == System || (actor.role == AssetOwner && db.assets[assetId].ownerId == actor.actorId))
  }

  /** `record_meter_reading` gives back the stored row if one has the fingerprint of the
      command, and otherwise adds a row with the columns of the command; it fails only for a
      role, a missing asset, or another owner's asset. */
  lemma RecordExactly(h: Hashes, db: Db, cmd: MeterReadingCreate, actor: Actor, newId: string, stamp: Stamp)
    requires cmd.Accepted()
    ensures var o := RecordReading(h, db, cmd, actor, newId, stamp);
            var known := exists x :: x in db.readings && db.readings[x].fingerprint == h.reading(cmd);
            && (o == Failed(RoleForbidden) <==> actor.role != AssetOwner && actor.role != System)
            && (o == Failed(AssetNotFound) <==> actor.role in {AssetOwner, System} && cmd.assetId !in db.assets)
            && (o == Failed(NotAssetOwner) <==>
                  actor.role == AssetOwner && cmd.assetId in db.assets
                  && db.assets[cmd.assetId].ownerId != actor.actorId)
            && (o.Done? <==> MayRecord(db, cmd.assetId, actor))
            && (o.Done? && known ==>
                  o.db == db && o.value in db.readings && db.readings[o.value].fingerprint == h.reading(cmd))
            && (o.Done? && !known ==>
                  o.value == newId && RecordedAs(h, db, o.db, cmd, actor.actorId, newId))
  {
    hide Micro, ReadingWith, LogEvent, RecordReading, RecordedAs;
    RecordRefuses(h, db, cmd, actor, newId, stamp);
    if MayRecord(db, cmd.assetId, actor) { RecordAccepts(h, db, cmd, actor, newId, stamp); }
  }

  lemma RecordRefuses(h: Hashes, db: Db, cmd: MeterReadingCreate, actor: Actor, newId: string, stamp: Stamp)
    requires cmd.Accepted()
    ensures !MayRecord(db, cmd.assetId, actor) ==>
              RecordReading(h, db, cmd, actor, newId, stamp)
              == Failed(if actor.role != AssetOwner && actor.role != System then RoleForbidden
                        else if cmd.assetId !in db.assets then AssetNotFound else NotAssetOwner)
  {
    hide Micro, ReadingWith, LogEvent;
  }

  lemma RecordAccepts(h: Hashes, db: Db, cmd: MeterReadingCreate, actor: Actor, newId: string, stamp: Stamp)
    requires cmd.Accepted() && MayRecord(db, cmd.assetId, actor)
    ensures var o := RecordReading(h, db, cmd, actor, newId, stamp);
            var known := exists x :: x in db.readings && db.readings[x].fingerprint == h.reading(cmd);
            && o.Done?
            && (known ==> o.db == db && o.value in db.readings && db.readings[o.value].fingerprint == h.reading(cmd))
            && (!known ==> o.value == newId && RecordedAs(h, db, o.db, cmd, actor.actorId, newId))
  {
    hide Micro, LogEvent, ReadingWith, RecordedAs;
    var found := ReadingWith(db, h.reading(cmd));
    if found.Some? {
      assert RecordReading(h, db, cmd, actor, newId, stamp) == Done(db, found.value);
    } else {
      RecordAdds(h, db, cmd, actor, newId, stamp);
    }
  }

  /** One event and one row with the columns of the command are added. */
  predicate RecordedAs(h: Hashes, db: Db, b: Db, cmd: MeterReadingCreate, actorId: string, newId: string)
    requires cmd.Accepted()
  {
    && |b.log| == |db.log| + 1
    && b.readings == db.readings[newId :=
         Reading(cmd.assetId, cmd.intervalStart.instant, cmd.intervalEnd.instant, Micro(cmd.energy), cmd.source,
                 h.reading(cmd), actorId)]
  }

  lemma RecordAdds(h: Hashes, db: Db, cmd: MeterReadingCreate, actor: Actor, newId: string, stamp: Stamp)
    requires cmd.Accepted() && MayRecord(db, cmd.assetId, actor) && ReadingWith(db, h.reading(cmd)).None?
    ensures var o := RecordReading(h, db, cmd, actor, newId, stamp);
            o.Done? && o.value == newId && RecordedAs(h, db, o.db, cmd, actor.actorId, newId)
  {
    hide Micro, LogEvent, ReadingWith;
  }

  lemma RecordKeepsOne(h: Hashes, db: Db, cmd: MeterReadingCreate, actor: Actor, newId: string, stamp: Stamp)
    requires cmd.Accepted() && OneRowEach(db.readings)
    ensures OneRowEach(Committed(RecordReading(h, db, cmd, actor, newId, stamp), db).readings)
  {
    hide RecordReading, Micro;
    RecordExactly(h, db, cmd, actor, newId, stamp);
  }

  lemma OneNext(h: Hashes, max: nat, w: World, step: Step, stamp: Stamp)
    requires Enabled(max, w, step, stamp) && OneRowEach(w.db.readings)
    ensures OneRowEach(Next(h, max, w, step, stamp).db.readings)
  {
    hide Claim, Finalized, FreshEvent, OneRowEach, RegisterAsset, CreateOffer, Reserve, Issue, RecordReading,
      Coordination.Settle, Redrive;
    match step
    case Api(c) =>
      if c.ReadingCommand? { RecordKeepsOne(h, w.db, c.reading, c.actor, c.readingId, stamp); }
      else { OtherReadings(h, w.db, c, stamp); }
    case ClaimStep(cfg, token) => ClaimReadings(w.db, cfg, token, stamp.at);
    case PublishStep(_, _, _) =>
    case FinalizeStep(token) => FinalizedReadings(h, w.db, w.flights[token], stamp);
    case CrashStep(_) =>
  }

  lemma {:induction false} OneRun(h: Hashes, max: nat, w: World, run: seq<Event>)
    requires Legal(h, max, w, run) && OneRowEach(w.db.readings)
    ensures OneRowEach(EndOf(h, max, w, run).db.readings)
    decreases |run|
  {
    hide Enabled, Next, OneRowEach;
    if run != [] {
      OneNext(h, max, w, run[0].step, run[0].stamp);
      OneRun(h, max, Next(h, max, w, run[0].step, run[0].stamp), run[1..]);
    }
  }

  /** In every reachable state two readings with one fingerprint are one row. */
  lemma FingerprintsUnique(h: Hashes, max: nat, w: World, x: string, y: string)
    requires Reachable(h, max, w) && x in w.db.readings && y in w.db.readings
    requires w.db.readings[x].fingerprint == w.db.readings[y].fingerprint
    ensures x == y
  {
    hide Legal, EndOf;
    var clock, run :| Legal(h, max, Start(clock), run) && w == EndOf(h, max, Start(clock), run);
    OneRun(h, max, Start(clock), run);
  }

  // ------------------------------------------------------------------ replays

  /** Once a reading is recorded, whatever runs in between, the same command by anyone who may
      record for the asset gives back its row and changes nothing. */
  lemma ReadingReplays(h: Hashes, max: nat, w: World, c: Command, stamp: Stamp, run: seq<Event>, actor: Actor,
                       newId: string, later: Stamp)
    requires max >= 1 && Reachable(h, max, w) && Enabled(max, w, Api(c), stamp) && c.ReadingCommand?
    requires RecordReading(h, w.db, c.reading, c.actor, c.readingId, stamp).Done?
    requires Legal(h, max, Next(h, max, w, Api(c), stamp), run)
    ensures var id := RecordReading(h, w.db, c.reading, c.actor, c.readingId, stamp).value;
            var db := EndOf(h, max, Next(h, max, w, Api(c), stamp), run).db;
            && id in db.readings && db.readings[id].fingerprint == h.reading(c.reading)
            && (MayRecord(db, c.reading.assetId, actor) ==>
                  RecordReading(h, db, c.reading, actor, newId, later) == Done(db, id))
  {
    hide Reachable, Legal, EndOf, FreshEvent, RecordReading, WorldInv, Micro;
    var next := Next(h, max, w, Api(c), stamp);
    var end := EndOf(h, max, next, run);
    var id := RecordReading(h, w.db, c.reading, c.actor, c.readingId, stamp).value;
    RecordExactly(h, w.db, c.reading, c.actor, c.readingId, stamp);
    assert id in next.db.readings && next.db.readings[id].fingerprint == h.reading(c.reading);
    ReachableNext(h, max, w, Api(c), stamp);
    ReachableInv(h, max, next);
    RunExtends(h, max, next, run);
    ReachableOn(h, max, next, run);
    assert end.db.readings[id] == next.db.readings[id];
    hide Extends;
    RecordExactly(h, end.db, c.reading, actor, newId, later);
    if MayRecord(end.db, c.reading.assetId, actor) {
      FingerprintsUnique(h, max, end, id, RecordReading(h, end.db, c.reading, actor, newId, later).value);
    }
  }

  // -------------------------------------------------------------------- texts

  /** What `_request_hash` is given for a reading: the command dumped in JSON mode. */
  function ReadingItems(cmd: MeterReadingCreate): seq<PyItem> {
    [PyItem("asset_id", PyStr(cmd.assetId)), PyItem("interval_start", PyStr(ZonedText(cmd.intervalStart))),
     PyItem("interval_end", PyStr(ZonedText(cmd.intervalEnd))), PyItem("energy_kwh", PyStr(DecimalStr(cmd.energy))),
     PyItem("source", PyStr(cmd.source))]
  }

  ghost predicate HashesReadings(h: Hashes, sha: string -> string) {
    forall cmd :: h.reading(cmd) == sha(CanonicalText(PyDict(ReadingItems(cmd))))
  }

  lemma ReadingNamesDistinct(cmd: MeterReadingCreate)
    ensures DistinctNames(ReadingItems(cmd))
  {
  }

  /** The dumped text of a reading command determines the command. */
  lemma ReadingTextInjective(a: MeterReadingCreate, b: MeterReadingCreate)
    requires CanonicalText(PyDict(ReadingItems(a))) == CanonicalText(PyDict(ReadingItems(b)))
    ensures a == b
  {
    SameTextSameNormal(PyDict(ReadingItems(a)), PyDict(ReadingItems(b)));
    ReadingNamesDistinct(a);
    hide CanonicalText, DecimalStr, ZonedText;
    FieldsAgree(ReadingItems(a), ReadingItems(b));
    var x, y := ReadingItems(a), ReadingItems(b);
    assert Normalize(x[0].value) == Normalize(y[0].value);
    assert Normalize(x[1].value) == Normalize(y[1].value);
    assert Normalize(x[2].value) == Normalize(y[2].value);
    assert Normalize(x[3].value) == Normalize(y[3].value);
    assert Normalize(x[4].value) == Normalize(y[4].value);
    ZonedTextInjective(a.intervalStart, b.intervalStart);
    ZonedTextInjective(a.intervalEnd, b.intervalEnd);
    DecimalStrInjective(a.energy, b.energy);
  }

  /** With SHA-256 free of collisions the fingerprint decides the command. */
  lemma FingerprintDecides(h: Hashes, sha: string -> string, a: MeterReadingCreate, b: MeterReadingCreate)
    requires Ideal(sha) && HashesReadings(h, sha)
    ensures h.reading(a) == h.reading(b) <==> a == b
  {
    assert h.reading(a) == sha(CanonicalText(PyDict(ReadingItems(a))));
    assert h.reading(b) == sha(CanonicalText(PyDict(ReadingItems(b))));
    hide CanonicalText, ReadingItems;
    if h.reading(a) == h.reading(b) { ReadingTextInjective(a, b); }
  }

  /** With SHA-256 free of collisions: a command that differs from one recorded before is never
      answered with its row. */
  lemma OthersGetOtherRows(h: Hashes, sha: string -> string, max: nat, w: World, c: Command, stamp: Stamp,
                           run: seq<Event>, other: MeterReadingCreate, actor: Actor, newId: string, later: Stamp)
    requires Ideal(sha) && HashesReadings(h, sha)
    requires max >= 1 && Reachable(h, max, w) && Enabled(max, w, Api(c), stamp) && c.ReadingCommand?
    requires RecordReading(h, w.db, c.reading, c.actor, c.readingId, stamp).Done?
    requires Legal(h, max, Next(h, max, w, Api(c), stamp), run)
    requires var db := EndOf(h, max, Next(h, max, w, Api(c), stamp), run).db;
             other.Accepted() && newId !in db.readings && MayRecord(db, other.assetId, actor)
    ensures var id := RecordReading(h, w.db, c.reading, c.actor, c.readingId, stamp).value;
            var db := EndOf(h, max, Next(h, max, w, Api(c), stamp), run).db;
            var o := RecordReading(h, db, other, actor, newId, later);
            o.Done? && (o.value == id <==> other == c.reading)
  {
    hide Reachable, Legal, EndOf, Enabled, Next, RecordReading, Ideal, HashesReadings, MayRecord;
    var end := EndOf(h, max, Next(h, max, w, Api(c), stamp), run);
    ReadingReplays(h, max, w, c, stamp, run, actor, newId, later);
    RecordExactly(h, end.db, other, actor, newId, later);
    FingerprintDecides(h, sha, c.reading, other);
  }
}
