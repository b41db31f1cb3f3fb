/** What a reader of the hashed and signed JSON finds under each name. */
module FieldNames {
  import opened Text
  import opened Decimals
  import opened CanonicalJson
  import opened CanonicalJsonLaws
  import opened AuditChain
  import opened WireForms
  import opened Checkpoints
  import opened Signals
  import opened Domain
  import opened EventForms
  import opened EvidenceForms
  import opened RequestForms
  import opened Fingerprints

  /** An object has a value under a name, and no other value under it. */
  predicate Has(j: Json, name: string, value: Json) {
    && j.Obj? && Member(name, value) in j.members
    && forall i :: 0 <= i < |j.members| && j.members[i].key == name ==> j.members[i].value == value
  }

  /** A text is a JSON object that has a value under a name. */
  predicate Shows(text: string, name: string, value: Json) {
    Loads(text).Some? && Has(Loads(text).value, name, value)
  }

  /** The normal form of a dict has each value under its name. */
  lemma FieldStored(items: seq<PyItem>, i: nat)
    requires DistinctNames(items) && i < |items|
    ensures Has(Normalize(PyDict(items)), items[i].key, Normalize(items[i].value))
    ensures Normalize(PyDict(items)).Obj? && |Normalize(PyDict(items)).members| == |items|
  {
    var x := SortedValues(RenderMembers(items));
    assert Normalize(PyDict(items)) == Obj(SortByKey(x));
    assert x[i] == Member(items[i].key, Normalize(items[i].value));
    assert forall j :: 0 <= j < |x| ==> x[j].key == items[j].key;
    SortLaw(x);
    hide SortByKey, SortedValues, RenderMembers, Sorted, Render;
    var y := SortByKey(x);
    assert x[i] in x;
    forall k | 0 <= k < |y| && y[k].key == items[i].key ensures y[k] == x[i] {
      assert y[k] in y;
      var n :| 0 <= n < |x| && x[n] == y[k];
    }
  }

  lemma FieldShown(items: seq<PyItem>, i: nat)
    requires DistinctNames(items) && i < |items|
    ensures Shows(CanonicalText(PyDict(items)), items[i].key, Normalize(items[i].value))
  {
    LoadsCanonical(PyDict(items));
    FieldStored(items, i);
    hide CanonicalText, Sorted, Has;
  }

  // ------------------------------------------------------------- checkpoints

  /** The signed text shows the five signed fields under their names. */
  lemma SignedFields(c: AuditCheckpoint)
    ensures var t := SigningPayload(c);
            && Shows(t, "version", Str(c.version)) && Shows(t, "key_id", Str(c.keyId))
            && Shows(t, "event_count", Num(c.eventCount)) && Shows(t, "head_hash", Str(c.headHash))
            && Shows(t, "issued_at", Str(c.issuedAt))
  {
    UnsignedNamesDistinct(c);
    hide CanonicalText, Shows;
    var items := UnsignedItems(c);
    FieldShown(items, 0); FieldShown(items, 1); FieldShown(items, 2); FieldShown(items, 3); FieldShown(items, 4);
  }

  // -------------------------------------------------------------- audit events

  /** The hashed text of an event shows its nine hashed fields under their names. */
  lemma HashedFields(m: Material<StoredPayload>)
    ensures var t := CanonicalText(PyDict(MaterialItems(m)));
            && Shows(t, "event_id", Str(m.eventId)) && Shows(t, "aggregate_type", Str(m.aggregateType))
            && Shows(t, "aggregate_id", Str(m.aggregateId)) && Shows(t, "event_type", Str(m.eventType))
            && Shows(t, "actor_id", Str(m.actorId)) && Shows(t, "correlation_id", Str(m.correlationId))
            && Shows(t, "payload", m.payload) && Shows(t, "occurred_at", Str(IsoText(m.occurredAt)))
            && Shows(t, "previous_hash", Str(m.previousHash))
  {
    MaterialNamesDistinct(m);
    hide CanonicalText, Shows, AsPy, IsoText;
    var items := MaterialItems(m);
    FieldShown(items, 0); FieldShown(items, 1); FieldShown(items, 2); FieldShown(items, 3); FieldShown(items, 4);
    FieldShown(items, 5); FieldShown(items, 6); FieldShown(items, 7); FieldShown(items, 8);
    assert Normalize(AsPy(m.payload)) == m.payload;
  }

  // ---------------------------------------------------------- event payloads

  /** What is stored of a fact: its figures as fixed-point text, its times in UTC. */
  predicate StoredFields(f: Fact, j: Json) {
    match f
    case AssetRegistered(_, externalId, assetType, capacity, location) =>
      && Has(j, "external_id", Str(externalId)) && Has(j, "capacity_kw", Str(FixedText(capacity)))
      && Has(j, "location_code", Str(location))
      && Has(j, "asset_type", Str(match assetType
                                  case Battery => "battery"
                                  case EvCharger => "ev_charger"
                                  case HeatPump => "heat_pump"
                                  case IndustrialLoad => "industrial_load"))
    case OfferCreated(_, assetId, direction, quantity, price, start, end) =>
      && Has(j, "asset_id", Str(assetId)) && Has(j, "quantity_kw", Str(FixedText(quantity)))
      && Has(j, "price_per_kwh", Str(FixedText(price)))
      && Has(j, "direction", Str(match direction case Increase => "increase" case Decrease => "decrease"))
      && Has(j, "window_start", Str(IsoText(start.instant))) && Has(j, "window_end", Str(IsoText(end.instant)))
    case OfferTaken(_, offerId, quantity) =>
      Has(j, "offer_id", Str(offerId)) && Has(j, "quantity_kw", Str(FixedText(quantity)))
    case DispatchQueued(_, reservationId, target, start, end, messageId) =>
      && Has(j, "reservation_id", Str(reservationId)) && Has(j, "target_kw", Str(FixedText(target)))
      && Has(j, "starts_at", Str(IsoText(start.instant))) && Has(j, "ends_at", Str(IsoText(end.instant)))
      && Has(j, "outbox_message_id", Str(messageId)) && Has(j, "delivery_status", Str("queued"))
    case DispatchPublished(_, messageId, reference, attempt) =>
      && Has(j, "outbox_message_id", Str(messageId)) && Has(j, "adapter_reference", Str(reference))
      && Has(j, "attempt", Num(attempt))
    case DeliveryFailed(_, messageId, attempts, error) =>
      && Has(j, "outbox_message_id", Str(messageId)) && Has(j, "attempts", Num(attempts))
      && Has(j, "error", Str(error))
    case RedriveAuthorized(_, messageId, reason, attempts, errorHash) =>
      && Has(j, "outbox_message_id", Str(messageId)) && Has(j, "reason", Str(reason))
      && Has(j, "previous_attempts", Num(attempts)) && Has(j, "previous_error_sha256", Str(errorHash))
      && Has(j, "idempotency_key_reused", Bool(true))
    case ReadingRecorded(_, assetId, start, end, energy, source, fingerprint) =>
      && Has(j, "asset_id", Str(assetId)) && Has(j, "energy_kwh", Str(FixedText(energy)))
      && Has(j, "interval_start", Str(IsoText(start.instant))) && Has(j, "interval_end", Str(IsoText(end.instant)))
      && Has(j, "source", Str(source)) && Has(j, "fingerprint", Str(fingerprint))
    case SettlementCalculated(_, reservationId, dispatchId, readingIds, delivered, price, amount) =>
      && Has(j, "reservation_id", Str(reservationId)) && Has(j, "dispatch_id", Str(dispatchId))
      && Has(j, "meter_reading_ids", Arr(Strs(readingIds))) && Has(j, "delivered_kwh", Str(FixedText(delivered)))
      && Has(j, "price_per_kwh", Str(FixedText(price))) && Has(j, "amount", Str(FixedText(amount)))
  }

  function Strs(s: seq<string>): (r: seq<Json>)
    ensures |r| == |s| && forall i :: 0 <= i < |s| ==> r[i] == Str(s[i])
  {
    seq(|s|, i requires 0 <= i < |s| => Str(s[i]))
  }

  lemma TextsNormalized(s: seq<string>)
    ensures Normalize(PyList(Texts(s))) == Arr(Strs(s))
  {
    var items := Normalize(PyList(Texts(s))).items;
    assert |items| == |s| && forall i :: 0 <= i < |s| ==> items[i] == Str(s[i]);
    assert items == Strs(s);
  }

  /** The stored payload of an event shows the fields of its fact under their names, and
      nothing else. */
  lemma FactFields(f: Fact)
    ensures StoredFields(f, StoredFact(f))
    ensures StoredFact(f).Obj? && |StoredFact(f).members| == |FactItems(f)|
  {
    FactNamesDistinct(f);
    FieldCount(f);
    hide FactItems, StoredFields, Has, DistinctNames;
    assert StoredFact(f) == Normalize(PyDict(FactItems(f)));
    hide StoredFact;
    if f.AssetRegistered? || f.OfferCreated? {
      OfferedFields(f);
    } else if f.OfferTaken? || f.DispatchQueued? || f.ReadingRecorded? {
      MarketFields(f);
    } else if f.SettlementCalculated? {
      BillFields(f);
    } else {
      DeliveryFields(f);
    }
  }

  lemma FieldCount(f: Fact)
    requires DistinctNames(FactItems(f))
    ensures Normalize(PyDict(FactItems(f))).Obj?
    ensures |Normalize(PyDict(FactItems(f))).members| == |FactItems(f)|
  {
    hide FactItems;
    var items := FactItems(f);
    if items == [] { assert |Normalize(PyDict(items)).members| == 0; } else { FieldStored(items, 0); }
  }

  lemma OfferedFields(f: Fact)
    requires DistinctNames(FactItems(f)) && (f.AssetRegistered? || f.OfferCreated?)
    ensures StoredFields(f, Normalize(PyDict(FactItems(f))))
  {
    hide Has, DistinctNames, FixedText, IsoText;
    var items := FactItems(f);
    FieldStored(items, 0); FieldStored(items, 1); FieldStored(items, 2); FieldStored(items, 3);
    if f.OfferCreated? { FieldStored(items, 4); FieldStored(items, 5); }
  }

  lemma MarketFields(f: Fact)
    requires DistinctNames(FactItems(f)) && (f.OfferTaken? || f.DispatchQueued? || f.ReadingRecorded?)
    ensures StoredFields(f, Normalize(PyDict(FactItems(f))))
  {
    hide Has, DistinctNames, FixedText, IsoText;
    var items := FactItems(f);
    FieldStored(items, 0); FieldStored(items, 1);
    if !f.OfferTaken? { FieldStored(items, 2); FieldStored(items, 3); FieldStored(items, 4); FieldStored(items, 5); }
  }

  lemma BillFields(f: Fact)
    requires DistinctNames(FactItems(f)) && f.SettlementCalculated?
    ensures StoredFields(f, Normalize(PyDict(FactItems(f))))
  {
    hide Has, DistinctNames, FixedText, Texts, Strs;
    var items := FactItems(f);
    TextsNormalized(f.readingIds);
    FieldStored(items, 0); FieldStored(items, 1); FieldStored(items, 2); FieldStored(items, 3); FieldStored(items, 4);
    FieldStored(items, 5);
  }

  lemma DeliveryFields(f: Fact)
    requires DistinctNames(FactItems(f)) && (f.DispatchPublished? || f.DeliveryFailed? || f.RedriveAuthorized?)
    ensures StoredFields(f, Normalize(PyDict(FactItems(f))))
  {
    hide Has, DistinctNames;
    var items := FactItems(f);
    FieldStored(items, 0); FieldStored(items, 1); FieldStored(items, 2);
    if f.RedriveAuthorized? { FieldStored(items, 3); FieldStored(items, 4); }
  }

  // --------------------------------------------------------------- manifests

  /** The text of a manifest shows its twelve fields under their names. */
  lemma ManifestNames(m: Manifest)
    ensures var t := CanonicalText(PyDict(ManifestItems(m)));
            && Shows(t, "schema_version", Str("1.0")) && Shows(t, "settlement_id", Str(m.settlementId))
            && Shows(t, "reservation_id", Str(m.reservationId)) && Shows(t, "offer_id", Str(m.offerId))
            && Shows(t, "asset_id", Str(m.assetId)) && Shows(t, "dispatch_id", Str(m.dispatchId))
            && Shows(t, "meter_reading_ids", Arr(Strs(m.readingIds)))
            && Shows(t, "delivered_kwh", Str(FixedText(m.delivered)))
            && Shows(t, "price_per_kwh", Str(FixedText(m.price))) && Shows(t, "amount", Str(FixedText(m.amount)))
            && Shows(t, "audit_event_id", Str(m.auditEventId)) && Shows(t, "audit_head_hash", Str(m.auditHeadHash))
  {
    ManifestNamesDistinct(m);
    TextsNormalized(m.readingIds);
    hide CanonicalText, Shows, FixedText, Texts, Strs, DistinctNames;
    var items := ManifestItems(m);
    FieldShown(items, 0); FieldShown(items, 1); FieldShown(items, 2); FieldShown(items, 3); FieldShown(items, 4);
    FieldShown(items, 5); FieldShown(items, 6); FieldShown(items, 7); FieldShown(items, 8); FieldShown(items, 9);
    FieldShown(items, 10); FieldShown(items, 11);
  }

  // ---------------------------------------------------------------- requests

  /** The fingerprinted text of a request shows its fields under their names. */
  lemma RequestNames(r: Request)
    ensures var t := RequestText(r);
            match r
            case ReserveRequest(offerId, quantity, actorId) =>
              && Shows(t, "offer_id", Str(offerId)) && Shows(t, "quantity_kw", Str(FixedText(quantity)))
              && Shows(t, "actor_id", Str(actorId))
            case DispatchRequest(reservationId, target, startsAt, endsAt, actorId) =>
              && Shows(t, "reservation_id", Str(reservationId)) && Shows(t, "target_kw", Str(DecimalStr(target)))
              && Shows(t, "starts_at", Str(ZonedText(startsAt))) && Shows(t, "ends_at", Str(ZonedText(endsAt)))
              && Shows(t, "actor_id", Str(actorId))
            case SettleRequest(reservationId, actorId) =>
              Shows(t, "reservation_id", Str(reservationId)) && Shows(t, "actor_id", Str(actorId))
  {
    RequestNamesDistinct(r);
    hide CanonicalText, Shows, FixedText, DecimalStr, ZonedText, DistinctNames;
    var items := RequestItems(r);
    FieldShown(items, 0); FieldShown(items, 1);
    if !r.SettleRequest? { FieldShown(items, 2); }
    if r.DispatchRequest? { FieldShown(items, 3); FieldShown(items, 4); }
  }

  /** The fingerprinted text of a reading shows its fields under their names. */
  lemma ReadingNames(cmd: MeterReadingCreate)
    ensures var t := CanonicalText(PyDict(ReadingItems(cmd)));
            && Shows(t, "asset_id", Str(cmd.assetId)) && Shows(t, "source", Str(cmd.source))
            && Shows(t, "interval_start", Str(ZonedText(cmd.intervalStart)))
            && Shows(t, "interval_end", Str(ZonedText(cmd.intervalEnd)))
            && Shows(t, "energy_kwh", Str(DecimalStr(cmd.energy)))
  {
    ReadingNamesDistinct(cmd);
    hide CanonicalText, Shows, DecimalStr, ZonedText, DistinctNames;
    var items := ReadingItems(cmd);
    FieldShown(items, 0); FieldShown(items, 1); FieldShown(items, 2); FieldShown(items, 3); FieldShown(items, 4);
  }

  // ---------------------------------------------------------------- payloads

  /** The outbox payload of a signal shows its fields under their names. */
  lemma PayloadFields(s: DispatchSignal)
    ensures var p := DispatchPayload(s);
            && p.Keys == {"schema_version", "dispatch_id", "asset_external_id", "target_kw", "starts_at", "ends_at"}
            && p["schema_version"] == TextValue("energy-flex-dispatch.v1")
            && p["dispatch_id"] == TextValue(s.dispatchId) && p["asset_external_id"] == TextValue(s.assetExternalId)
            && p["target_kw"] == TextValue(FixedText(s.target))
            && p["starts_at"] == TextValue(IsoText(s.startsAt.instant))
            && p["ends_at"] == TextValue(IsoText(s.endsAt.instant))
  {
    FieldNamesDiffer();
    hide FixedText, IsoText;
  }
}
