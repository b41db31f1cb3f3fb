/** A checkpoint pins more than the log: it pins the status of every row. */
module PinnedState {
  import opened Text
  import opened CanonicalJson
  import opened AuditChain
  import opened WireForms
  import opened Checkpoints
  import opened Domain
  import opened EventForms
  import opened Outbox
  import opened Invariants
  import opened Preservation
  import opened Replay
  import opened Accounting
  import opened Evidence
  import opened Machine
  import opened MachineInvariants
  import opened MachineSafety
  import opened Guarantees

  // ------------------------------------------------------------ event labels

  /** An event carries the type and aggregate id of its fact. */
  predicate Labelled(e: AuditEvent<Fact>) {
    e.hashed.eventType == EventType(e.hashed.payload) && e.hashed.aggregateId == AggregateId(e.hashed.payload)
  }

  predicate AllLabelled(log: seq<AuditEvent<Fact>>) { forall i :: 0 <= i < |log| ==> Labelled(log[i]) }

  lemma LoggedIsLabelled(h: Hashes, log: seq<AuditEvent<Fact>>, f: Fact, actorId: string, correlationId: string,
                         stamp: Stamp)
    requires AllLabelled(log)
    ensures AllLabelled(LogEvent(h, log, f, actorId, correlationId, stamp))
  {
  }

  lemma AccountedIsLabelled(h: Hashes, a: Db, b: Db, f: Fact)
    requires AllLabelled(a.log) && Accounted(h, a, b, f)
    ensures AllLabelled(b.log)
  {
    hide AllLabelled, LogEvent, Permitted, Enter, Statuses;
    var actorId, correlationId, stamp :| b.log == LogEvent(h, a.log, f, actorId, correlationId, stamp);
    LoggedIsLabelled(h, a.log, f, actorId, correlationId, stamp);
  }

  lemma LabelledNext(h: Hashes, max: nat, w: World, step: Step, stamp: Stamp)
    requires WorldInv(h, max, w) && max >= 1 && Enabled(max, w, step, stamp) && AllLabelled(w.db.log)
    ensures AllLabelled(Next(h, max, w, step, stamp).db.log)
  {
    hide WorldInv, DbInv, TablesOk, Inv, LogInv, EvidenceInv, Perform, Claim, Finalized, FlightsOk, Fenced, LocksOk,
      FailuresOk, Reached, AllLabelled, Accounted;
    Parts(h, max, w);
    DbHasInv(h, max, w.db);
    match step
    case Api(c) =>
      PerformAccounted(h, max, w.db, c, stamp);
      var after := Perform(h, w.db, c, stamp);
      if after != w.db {
        var f :| Accounted(h, w.db, after, f);
        AccountedIsLabelled(h, w.db, after, f);
      }
    case ClaimStep(cfg, token) => ClaimSilent(max, w.db, cfg, token, stamp.at);
    case PublishStep(_, _, _) =>
    case FinalizeStep(token) =>
      TablesHave(max, w, w.clock);
      FlightFaithful(max, w, token);
      FinalizedIsLabelled(h, max, w.db, w.flights[token], stamp);
    case CrashStep(_) =>
  }

  lemma FinalizedIsLabelled(h: Hashes, max: nat, db: Db, f: Flight, stamp: Stamp)
    requires DbInv(h, max, db) && Faithful(db, f.claimed) && f.cfg.maxAttempts == max && f.response.Some?
    requires AllLabelled(db.log)
    ensures AllLabelled(Finalized(h, db, f, stamp).log)
  {
    hide DbInv, Inv, AllLabelled, Accounted, Silent, RecordSuccess, RecordFailure;
    DbHasInv(h, max, db);
    FinalizeDb(h, max, db, f, stamp);
    if HoldsLease(db, f.claimed) {
      match f.response.value
      case Ack(reference) =>
        SuccessAccounted(h, max, db, f.cfg, f.claimed, reference, stamp);
        AccountedIsLabelled(h, db, Finalized(h, db, f, stamp),
                            DispatchPublished(f.claimed.aggregateId, f.claimed.id, reference,
                                              db.messages[f.claimed.id].attempts));
      case Raise(error) =>
        FailureAccounted(h, max, db, f.cfg, f.claimed, error, stamp);
        if db.messages[f.claimed.id].attempts < max {
          SilentLog(db, Finalized(h, db, f, stamp));
        } else {
          AccountedIsLabelled(h, db, Finalized(h, db, f, stamp),
                              DeliveryFailed(f.claimed.aggregateId, f.claimed.id, db.messages[f.claimed.id].attempts,
                                             ErrorText(error)));
        }
    }
  }

  lemma SilentLog(a: Db, b: Db)
    requires Silent(a, b)
    ensures a.log == b.log
  {
  }

  lemma {:induction false} LabelledRun(h: Hashes, max: nat, w: World, run: seq<Event>)
    requires WorldInv(h, max, w) && max >= 1 && Legal(h, max, w, run) && AllLabelled(w.db.log)
    ensures AllLabelled(EndOf(h, max, w, run).db.log)
    decreases |run|
  {
    hide WorldInv, Enabled, Next, AllLabelled;
    if run != [] {
      NextKeeps(h, max, w, run[0].step, run[0].stamp);
      LabelledNext(h, max, w, run[0].step, run[0].stamp);
      LabelledRun(h, max, Next(h, max, w, run[0].step, run[0].stamp), run[1..]);
    }
  }

  lemma ReachableLabelled(h: Hashes, max: nat, w: World)
    requires max >= 1 && Reachable(h, max, w)
    ensures AllLabelled(w.db.log)
  {
    hide WorldInv, Legal, EndOf;
    var clock, run :| Legal(h, max, Start(clock), run) && w == EndOf(h, max, Start(clock), run);
    StartOk(h, max, clock);
    LabelledRun(h, max, Start(clock), run);
  }

  // -------------------------------------------------- stored events and books

  /** An event type decides the kind of fact and the names in its payload. */
  lemma TypesDiffer(f: Fact, g: Fact)
    requires EventType(f) == EventType(g)
    ensures SameNames(FactItems(f), FactItems(g)) && Kind(f) == Kind(g)
  {
    hide FactItems, EventType, NamesOf;
    KindsDiffer(f);
    KindsDiffer(g);
    FactNames(f);
    FactNames(g);
  }

  /** The event types have pairwise different lengths. */
  lemma KindsDiffer(f: Fact)
    ensures Kind(f) == |EventType(f)|
  {
  }

  /** A fact's kind, numbered by the length of its event type: 16 for `asset.registered`,
      13 for `offer.created`, and so on. */
  function Kind(f: Fact): nat {
    match f
    case AssetRegistered(_, _, _, _, _) => 16
    case OfferCreated(_, _, _, _, _, _, _) => 13
    case OfferTaken(_, _, _) => 14
    case DispatchQueued(_, _, _, _, _, _) => 15
    case DispatchPublished(_, _, _, _) => 18
    case DeliveryFailed(_, _, _, _) => 24
    case RedriveAuthorized(_, _, _, _, _) => 27
    case ReadingRecorded(_, _, _, _, _, _, _) => 22
    case SettlementCalculated(_, _, _, _, _, _, _) => 21
  }

  /** The names in the payload of each kind. */
  function NamesOf(kind: nat): seq<string> {
    match kind
    case 16 => ["external_id", "asset_type", "capacity_kw", "location_code"]
    case 13 => ["asset_id", "direction", "quantity_kw", "price_per_kwh", "window_start", "window_end"]
    case 14 => ["offer_id", "quantity_kw"]
    case 15 => ["reservation_id", "target_kw", "starts_at", "ends_at", "outbox_message_id", "delivery_status"]
    case 18 => ["outbox_message_id", "adapter_reference", "attempt"]
    case 24 => ["outbox_message_id", "attempts", "error"]
    case 27 => ["outbox_message_id", "reason", "previous_attempts", "previous_error_sha256", "idempotency_key_reused"]
    case 22 => ["asset_id", "interval_start", "interval_end", "energy_kwh", "source", "fingerprint"]
    case _ => ["reservation_id", "dispatch_id", "meter_reading_ids", "delivered_kwh", "price_per_kwh", "amount"]
  }

  predicate Named(items: seq<PyItem>, names: seq<string>) {
    |items| == |names| && forall i :: 0 <= i < |items| ==> items[i].key == names[i]
  }

  lemma FactNames(f: Fact)
    ensures Named(FactItems(f), NamesOf(Kind(f)))
  {
    hide FactItems, NamesOf, Named;
    if f.AssetRegistered? || f.OfferCreated? || f.OfferTaken? || f.ReadingRecorded? {
      MarketNames(f);
    } else if f.DispatchQueued? || f.DispatchPublished? || f.DeliveryFailed? {
      DeliveryNames(f);
    } else {
      RecoveryNames(f);
    }
  }

  lemma MarketNames(f: Fact)
    requires f.AssetRegistered? || f.OfferCreated? || f.OfferTaken? || f.ReadingRecorded?
    ensures Named(FactItems(f), NamesOf(Kind(f)))
  {
    hide AssetTypeText, DirectionText;
  }

  lemma DeliveryNames(f: Fact)
    requires f.DispatchQueued? || f.DispatchPublished? || f.DeliveryFailed?
    ensures Named(FactItems(f), NamesOf(Kind(f)))
  {
  }

  lemma RecoveryNames(f: Fact)
    requires f.RedriveAuthorized? || f.SettlementCalculated?
    ensures Named(FactItems(f), NamesOf(Kind(f)))
  {
    hide Texts;
  }

  lemma TextField(f: Fact, g: Fact, i: nat)
    requires SameNames(FactItems(f), FactItems(g)) && StoredFact(f) == StoredFact(g)
    requires i < |FactItems(f)| && FactItems(f)[i].value.PyStr? && FactItems(g)[i].value.PyStr?
    ensures FactItems(f)[i].value == FactItems(g)[i].value
  {
    FactNamesDistinct(f);
    hide FactItems;
    FieldsAgree(FactItems(f), FactItems(g));
    assert Normalize(FactItems(f)[i].value) == Normalize(FactItems(g)[i].value);
  }

  /** What is stored of an event decides its effect on the books. */
  lemma StoredDecidesEffect(f: Fact, g: Fact, b: Books)
    requires EventType(f) == EventType(g) && AggregateId(f) == AggregateId(g) && StoredFact(f) == StoredFact(g)
    ensures Enter(b, f) == Enter(b, g)
  {
    hide StoredFact, EventType, FactItems;
    TypesDiffer(f, g);
    if f.DispatchPublished? || f.DeliveryFailed? || f.RedriveAuthorized? {
      SameMessageId(f, g);
    } else {
      SameRowIds(f, g);
    }
  }

  lemma SameMessageId(f: Fact, g: Fact)
    requires SameNames(FactItems(f), FactItems(g)) && StoredFact(f) == StoredFact(g)
    requires f.DispatchPublished? || f.DeliveryFailed? || f.RedriveAuthorized?
    requires (f.DispatchPublished? <==> g.DispatchPublished?) && (f.DeliveryFailed? <==> g.DeliveryFailed?)
    requires (f.RedriveAuthorized? <==> g.RedriveAuthorized?)
    ensures f.messageId == g.messageId
  {
    hide StoredFact;
    TextField(f, g, 0);
  }

  lemma SameRowIds(f: Fact, g: Fact)
    requires SameNames(FactItems(f), FactItems(g)) && StoredFact(f) == StoredFact(g)
    ensures f.OfferTaken? && g.OfferTaken? ==> f.offerId == g.offerId
    ensures f.DispatchQueued? && g.DispatchQueued? ==> f.reservationId == g.reservationId && f.messageId == g.messageId
    ensures f.SettlementCalculated? && g.SettlementCalculated? ==>
              f.reservationId == g.reservationId && f.dispatchId == g.dispatchId
  {
    hide StoredFact;
    if f.OfferTaken? && g.OfferTaken? { TextField(f, g, 0); }
    if f.DispatchQueued? && g.DispatchQueued? { TextField(f, g, 0); TextField(f, g, 4); }
    if f.SettlementCalculated? && g.SettlementCalculated? { TextField(f, g, 0); TextField(f, g, 1); }
  }

  lemma {:induction false} StoredDecidesBooks(a: seq<AuditEvent<Fact>>, b: seq<AuditEvent<Fact>>)
    requires |a| == |b| && AllLabelled(a) && AllLabelled(b)
    requires forall i :: 0 <= i < |a| ==> StoredMaterial(a[i].hashed) == StoredMaterial(b[i].hashed)
    ensures Replayed(a) == Replayed(b)
    decreases |a|
  {
    hide StoredFact, Enter, EventType, AggregateId;
    if a != [] {
      var n := |a| - 1;
      StoredDecidesBooks(a[..n], b[..n]);
      assert StoredMaterial(a[n].hashed) == StoredMaterial(b[n].hashed) && Labelled(a[n]) && Labelled(b[n]);
      StoredDecidesEffect(a[n].hashed.payload, b[n].hashed.payload, Replayed(a[..n]));
    }
  }

  /** A checkpoint of one state pins the status of every row: whenever a state, reached
      perhaps by another run, has a log whose event number `eventCount` carries the
      checkpointed head, folding its log up to there gives the checkpointed statuses. */
  lemma CheckpointPinsState(h: Hashes, sha: string -> string, max: nat, w: World, later: World, signer: Signer,
                            issuedAt: Zoned)
    requires max >= 1 && Reachable(h, max, w) && Reachable(h, max, later) && Ideal(sha) && HashesStored(h, sha)
    ensures CreateCheckpoint(Verdict(h.event, w.db.log), signer, issuedAt).Success?
    ensures var c := CreateCheckpoint(Verdict(h.event, w.db.log), signer, issuedAt).value;
            c.eventCount <= |later.db.log| && HeadHash(later.db.log[..c.eventCount]) == c.headHash ==>
              Replayed(later.db.log[..c.eventCount]) == Statuses(w.db)
              && (c.eventCount == |later.db.log| ==> Statuses(later.db) == Statuses(w.db))
  {
    hide Reachable, HashesStored, Ideal, Statuses, Replayed, Lawful, LivesSo, History, CanonicalText, SigningPayload,
      FirstBroken;
    LogTellsState(h, max, w);
    LogTellsState(h, max, later);
    var log := w.db.log;
    var n := |log|;
    if n <= |later.db.log| && HeadHash(later.db.log[..n]) == HeadHash(log) {
      VerdictsValid(h, log);
      VerdictsValid(h, later.db.log);
      SameHeadSameStored(h, sha, log, later.db.log);
      ReachableLabelled(h, max, w);
      ReachableLabelled(h, max, later);
      StoredDecidesBooks(log, later.db.log[..n]);
      if n == |later.db.log| { assert later.db.log[..n] == later.db.log; }
    }
  }

  lemma VerdictsValid(h: Hashes, log: seq<AuditEvent<Fact>>)
    requires Verdict(h.event, log).valid
    ensures Valid(h.event, log)
  {
  }

  lemma SameHeadSameStored(h: Hashes, sha: string -> string, log: seq<AuditEvent<Fact>>, later: seq<AuditEvent<Fact>>)
    requires Ideal(sha) && HashesStored(h, sha) && Valid(h.event, log) && Valid(h.event, later)
    requires |log| <= |later| && HeadHash(later[..|log|]) == HeadHash(log)
    ensures forall i :: 0 <= i < |log| ==>
              StoredMaterial(log[i].hashed) == StoredMaterial(later[i].hashed) && log[i].eventHash == later[i].eventHash
  {
    hide Ideal, HashesStored, Valid, StoredMaterial;
    EventDigestCollisionFree(sha);
    VerdictStored(h, sha, log);
    VerdictStored(h, sha, later);
    var a, b := StoredLog(log), StoredLog(later);
    assert HeadHash(b[..|a|]) == HeadHash(a);
    HeadPinsPrefix(EventDigest(sha), a, b);
    forall i | 0 <= i < |log|
      ensures StoredMaterial(log[i].hashed) == StoredMaterial(later[i].hashed) && log[i].eventHash == later[i].eventHash
    {
      assert b[i].hashed == a[i].hashed && b[i].eventHash == a[i].eventHash;
    }
  }
}
