/** Audit payloads as they are stored, and what a checkpoint says about the state. */
module EventForms {
  import opened Text
  import opened Decimals
  import opened CanonicalJson
  import opened CanonicalJsonLaws
  import opened AuditChain
  import opened WireForms
  import opened Domain

  function AssetTypeText(t: AssetType): string {
    match t
    case Battery => "battery"
    case EvCharger => "ev_charger"
    case HeatPump => "heat_pump"
    case IndustrialLoad => "industrial_load"
  }

  function DirectionText(d: FlexDirection): string { if d.Increase? then "increase" else "decrease" }

  function Texts(s: seq<string>): seq<Py> { seq(|s|, i requires 0 <= i < |s| => PyStr(s[i])) }

  /** The payload that a transaction passes to `append_event`. */
  function FactItems(f: Fact): seq<PyItem> {
    match f
    case AssetRegistered(_, externalId, assetType, capacity, locationCode) =>
      [PyItem("external_id", PyStr(externalId)), PyItem("asset_type", PyStr(AssetTypeText(assetType))),
       PyItem("capacity_kw", PyDecimal(capacity)), PyItem("location_code", PyStr(locationCode))]
    case OfferCreated(_, assetId, direction, quantity, price, windowStart, windowEnd) =>
      [PyItem("asset_id", PyStr(assetId)), PyItem("direction", PyStr(DirectionText(direction))),
       PyItem("quantity_kw", PyDecimal(quantity)),
       PyItem("price_per_kwh", PyDecimal(price)), PyItem("window_start", PyTime(windowStart)),
           PyItem("window_end", PyTime(windowEnd))]
    case OfferTaken(_, offerId, quantity) =>
      [PyItem("offer_id", PyStr(offerId)), PyItem("quantity_kw", PyDecimal(quantity))]
    case DispatchQueued(_, reservationId, target, startsAt, endsAt, messageId) =>
      [PyItem("reservation_id", PyStr(reservationId)), PyItem("target_kw", PyDecimal(target)),
       PyItem("starts_at", PyTime(startsAt)),
       PyItem("ends_at", PyTime(endsAt)), PyItem("outbox_message_id", PyStr(messageId)),
           PyItem("delivery_status", PyStr("queued"))]
    case DispatchPublished(_, messageId, reference, attempt) =>
      [PyItem("outbox_message_id", PyStr(messageId)), PyItem("adapter_reference", PyStr(reference)),
       PyItem("attempt", PyInt(attempt))]
    case DeliveryFailed(_, messageId, attempts, error) =>
      [PyItem("outbox_message_id", PyStr(messageId)), PyItem("attempts", PyInt(attempts)),
       PyItem("error", PyStr(error))]
    case RedriveAuthorized(_, messageId, reason, previousAttempts, previousErrorHash) =>
      [PyItem("outbox_message_id", PyStr(messageId)), PyItem("reason", PyStr(reason)),
       PyItem("previous_attempts", PyInt(previousAttempts)),
       PyItem("previous_error_sha256", PyStr(previousErrorHash)), PyItem("idempotency_key_reused", PyBool(true))]
    case ReadingRecorded(_, assetId, intervalStart, intervalEnd, energy, source, fingerprint) =>
      [PyItem("asset_id", PyStr(assetId)), PyItem("interval_start", PyTime(intervalStart)),
       PyItem("interval_end", PyTime(intervalEnd)),
       PyItem("energy_kwh", PyDecimal(energy)), PyItem("source", PyStr(source)),
           PyItem("fingerprint", PyStr(fingerprint))]
    case SettlementCalculated(_, reservationId, dispatchId, readingIds, delivered, price, amount) =>
      [PyItem("reservation_id", PyStr(reservationId)), PyItem("dispatch_id", PyStr(dispatchId)),
       PyItem("meter_reading_ids", PyList(Texts(readingIds))), PyItem("delivered_kwh", PyDecimal(delivered)),
       PyItem("price_per_kwh", PyDecimal(price)), PyItem("amount", PyDecimal(amount))]
  }

  lemma FactNamesDistinct(f: Fact)
    ensures DistinctNames(FactItems(f))
  {
    hide FactItems;
    if f.AssetRegistered? || f.OfferCreated? || f.OfferTaken? || f.ReadingRecorded? {
      MarketNamesDistinct(f);
    } else if f.DispatchQueued? || f.DispatchPublished? || f.DeliveryFailed? {
      DeliveryNamesDistinct(f);
    } else {
      RecoveryNamesDistinct(f);
    }
  }

  lemma MarketNamesDistinct(f: Fact)
    requires f.AssetRegistered? || f.OfferCreated? || f.OfferTaken? || f.ReadingRecorded?
    ensures DistinctNames(FactItems(f))
  {
    hide AssetTypeText, DirectionText;
  }

  lemma DeliveryNamesDistinct(f: Fact)
    requires f.DispatchQueued? || f.DispatchPublished? || f.DeliveryFailed?
    ensures DistinctNames(FactItems(f))
  {
    assert "starts_at"[0] == 's' && "ends_at"[0] == 'e';
  }

  lemma RecoveryNamesDistinct(f: Fact)
    requires f.RedriveAuthorized? || f.SettlementCalculated?
    ensures DistinctNames(FactItems(f))
  {
    hide Texts;
  }

  lemma FactWellKeyed(f: Fact)
    ensures WellKeyed(Render(PyDict(FactItems(f))))
  {
    FactNamesDistinct(f);
    var items := FactItems(f);
    forall i | 0 <= i < |items| ensures WellKeyed(Render(items[i].value)) {
      ValuesWellKeyed(f, i);
    }
  }

  /** A leaf, or a list of texts. */
  predicate Flat(p: Py) { !p.PyDict? && (p.PyList? ==> forall i :: 0 <= i < |p.items| ==> p.items[i].PyStr?) }

  lemma FlatWellKeyed(p: Py)
    requires Flat(p)
    ensures WellKeyed(Render(p))
  {
    hide FixedText, IsoText;
  }

  lemma ValuesFlat(f: Fact, i: nat)
    requires i < |FactItems(f)|
    ensures Flat(FactItems(f)[i].value)
  {
  }

  lemma ValuesWellKeyed(f: Fact, i: nat)
    requires i < |FactItems(f)|
    ensures WellKeyed(Render(FactItems(f)[i].value))
  {
    ValuesFlat(f, i);
    FlatWellKeyed(FactItems(f)[i].value);
  }

  /** Sorting keeps names distinct. */
  lemma {:induction false} SortedWellKeyed(j: Json)
    requires WellKeyed(j)
    ensures WellKeyed(Sorted(j))
    decreases j
  {
    match j {
      case Arr(items) =>
        forall i | 0 <= i < |items| ensures WellKeyed(Sorted(items[i])) { SortedWellKeyed(items[i]); }
      case Obj(members) =>
        forall i | 0 <= i < |members| ensures WellKeyed(Sorted(members[i].value)) { SortedWellKeyed(members[i].value); }
        SortedMembersWellKeyed(members);
      case _ =>
    }
  }

  lemma SortedMembersWellKeyed(members: seq<Member>)
    requires DistinctKeys(members) && forall i :: 0 <= i < |members| ==> WellKeyed(Sorted(members[i].value))
    ensures WellKeyed(Sorted(Obj(members)))
  {
    hide SortByKey, SortedValues, Sorted;
    SortedObject(members);
    var x := SortedValues(members);
    SortLaw(x);
    var y := SortByKey(x);
    forall i | 0 <= i < |y| ensures WellKeyed(y[i].value) { assert y[i] in x; }
    AscendingDistinct(y);
  }

  lemma AscendingDistinct(members: seq<Member>)
    requires Ascending(members)
    ensures DistinctKeys(members)
  {
    forall i, j | 0 <= i < j < |members| ensures members[i].key != members[j].key {
      LessIrreflexive(members[i].key);
    }
  }

  /** The payload as `append_event` stores it. */
  function StoredFact(f: Fact): StoredPayload {
    FactWellKeyed(f);
    SortedTwice(Render(PyDict(FactItems(f))));
    SortedWellKeyed(Render(PyDict(FactItems(f))));
    Normalize(PyDict(FactItems(f)))
  }

  function StoredMaterial(m: Material<Fact>): Material<StoredPayload> {
    Material(m.eventId, m.aggregateType, m.aggregateId, m.eventType, m.actorId, m.correlationId, StoredFact(m.payload),
             m.occurredAt, m.previousHash)
  }

  function StoredEvent(e: AuditEvent<Fact>): AuditEvent<StoredPayload> {
    AuditEvent(e.sequence, StoredMaterial(e.hashed), e.eventHash)
  }

  function StoredLog(log: seq<AuditEvent<Fact>>): (r: seq<AuditEvent<StoredPayload>>)
    ensures |r| == |log| && forall i :: 0 <= i < |r| ==> r[i] == StoredEvent(log[i])
  {
    seq(|log|, i requires 0 <= i < |log| => StoredEvent(log[i]))
  }

  /** The event hash of the program for a given SHA-256. */
  ghost predicate HashesStored(h: Hashes, sha: string -> string) {
    forall m :: h.event(m) == EventHash(sha, StoredMaterial(m))
  }

  lemma IntactStored(h: Hashes, sha: string -> string, log: seq<AuditEvent<Fact>>, i: nat)
    requires HashesStored(h, sha) && i < |log|
    ensures Intact(h.event, log, i) <==> Intact(EventDigest(sha), StoredLog(log), i)
  {
    hide EventHash, StoredFact;
    var stored := StoredLog(log);
    assert h.event(log[i].hashed) == EventHash(sha, StoredMaterial(log[i].hashed));
    assert HeadHash(log[..i]) == HeadHash(stored[..i]);
  }

  lemma HeadStored(log: seq<AuditEvent<Fact>>)
    ensures HeadHash(log) == HeadHash(StoredLog(log))
  {
    hide StoredMaterial;
  }

  /** The verifier gives the same verdict on the stored JSON log as on the events it
      stands for. */
  lemma VerdictStored(h: Hashes, sha: string -> string, log: seq<AuditEvent<Fact>>)
    requires HashesStored(h, sha)
    ensures Valid(h.event, log) <==> Valid(EventDigest(sha), StoredLog(log))
    ensures Verdict(h.event, log) == Verdict(EventDigest(sha), StoredLog(log))
  {
    hide Intact, HashesStored, StoredLog, HeadHash, StoredMaterial, EventHash, Valid, EventDigest;
    var digest, stored := EventDigest(sha), StoredLog(log);
    HeadStored(log);
    forall i | 0 <= i < |log| ensures Intact(h.event, log, i) <==> Intact(digest, stored, i) {
      IntactStored(h, sha, log, i);
    }
    SameBreaks(h.event, log, digest, stored);
    hide FirstBroken;
  }
}
