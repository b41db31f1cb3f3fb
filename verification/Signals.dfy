/** The outbound dispatch signal and its stored payload. */
module Signals {
  import opened Wrappers
  import opened Text
  import opened Decimals

  datatype DispatchSignal = DispatchSignal(
    dispatchId: string,
    assetExternalId: string,
    target: Decimal,
    startsAt: Zoned,
    endsAt: Zoned)

  /** Values of a stored payload. */
  datatype Scalar = TextValue(s: string) | NumberValue(n: int) | FlagValue(b: bool) | NoValue

  type Payload = map<string, Scalar>

  const SCHEMA_VERSION := "schema_version"
  const DISPATCH_ID := "dispatch_id"
  const ASSET_EXTERNAL_ID := "asset_external_id"
  const TARGET_KW := "target_kw"
  const STARTS_AT := "starts_at"
  const ENDS_AT := "ends_at"

  const DISPATCH_PAYLOAD_VERSION := "energy-flex-dispatch.v1"

  const LEGACY_DISPATCH_FIELDS: set<string> := {DISPATCH_ID, ASSET_EXTERNAL_ID, TARGET_KW, STARTS_AT, ENDS_AT}
  const VERSIONED_DISPATCH_FIELDS: set<string> := LEGACY_DISPATCH_FIELDS + {SCHEMA_VERSION}

  /** `dispatch_payload` */
  function DispatchPayload(signal: DispatchSignal): Payload {
    LegacyPayload(signal)[SCHEMA_VERSION := TextValue(DISPATCH_PAYLOAD_VERSION)]
  }

  /** The same fields without a schema version, as v0.3 wrote them. */
  function LegacyPayload(signal: DispatchSignal): Payload {
    map[
      DISPATCH_ID := TextValue(signal.dispatchId),
      ASSET_EXTERNAL_ID := TextValue(signal.assetExternalId),
      TARGET_KW := TextValue(FixedText(signal.target)),
      STARTS_AT := TextValue(IsoText(AsUtc(signal.startsAt).instant)),
      ENDS_AT := TextValue(IsoText(AsUtc(signal.endsAt).instant))
    ]
  }

  /** `str(value)` */
  function StrOf(v: Scalar): string {
    match v
    case TextValue(s) => s
    case NumberValue(n) => IntText(n)
    case FlagValue(b) => if b then "True" else "False"
    case NoValue => "None"
  }

  datatype DecodeError = UnsupportedVersion | UnexpectedShape | UnreadableValue

  /** `dispatch_signal` */
  function Decode(payload: Payload): Result<DispatchSignal, DecodeError> {
    if payload.Keys == VERSIONED_DISPATCH_FIELDS then
      if payload[SCHEMA_VERSION] != TextValue(DISPATCH_PAYLOAD_VERSION) then Failure(UnsupportedVersion)
      else Restore(payload)
    else if payload.Keys != LEGACY_DISPATCH_FIELDS then Failure(UnexpectedShape)
    else Restore(payload)
  }

  function Restore(payload: Payload): Result<DispatchSignal, DecodeError>
    requires payload.Keys >= LEGACY_DISPATCH_FIELDS
  {
    match (ParseDecimal(StrOf(payload[TARGET_KW])), ParseIso(StrOf(payload[STARTS_AT])),
           ParseIso(StrOf(payload[ENDS_AT])))
    case (Some(target), Some(startsAt), Some(endsAt)) =>
      Success(DispatchSignal(StrOf(payload[DISPATCH_ID]), StrOf(payload[ASSET_EXTERNAL_ID]), target, startsAt, endsAt))
    case _ => Failure(UnreadableValue)
  }

  /** What a signal becomes on the way through the outbox: the same ids, the same
      decimal value, the same instants. */
  function OnWire(signal: DispatchSignal): DispatchSignal {
    signal.(target := Plain(signal.target), startsAt := AsUtc(signal.startsAt), endsAt := AsUtc(signal.endsAt))
  }

  lemma FieldNamesDiffer()
    ensures |LEGACY_DISPATCH_FIELDS| == 5 && SCHEMA_VERSION !in LEGACY_DISPATCH_FIELDS
    ensures DISPATCH_ID != ASSET_EXTERNAL_ID && DISPATCH_ID != TARGET_KW && DISPATCH_ID != STARTS_AT
    ensures DISPATCH_ID != ENDS_AT
    ensures ASSET_EXTERNAL_ID != TARGET_KW && ASSET_EXTERNAL_ID != STARTS_AT && ASSET_EXTERNAL_ID != ENDS_AT
    ensures TARGET_KW != STARTS_AT && TARGET_KW != ENDS_AT && STARTS_AT != ENDS_AT
  {
    assert SCHEMA_VERSION[0] == 's' && SCHEMA_VERSION[1] == 'c';
    assert DISPATCH_ID[0] == 'd' && ASSET_EXTERNAL_ID[0] == 'a' && TARGET_KW[0] == 't';
    assert STARTS_AT[0] == 's' && STARTS_AT[1] == 't' && ENDS_AT[0] == 'e';
  }

  /** Decoding an encoded signal restores it, with or without the schema version. */
  lemma PayloadRoundTrip(signal: DispatchSignal)
    ensures Decode(DispatchPayload(signal)) == Success(OnWire(signal))
    ensures Decode(LegacyPayload(signal)) == Success(OnWire(signal))
  {
    hide FixedText, IsoText, ParseDecimal, ParseIso, Plain;
    FieldNamesDiffer();
    FixedRoundTrip(signal.target);
    IsoRoundTrip(signal.startsAt.instant);
    IsoRoundTrip(signal.endsAt.instant);
    assert LegacyPayload(signal).Keys == LEGACY_DISPATCH_FIELDS;
    assert DispatchPayload(signal).Keys == VERSIONED_DISPATCH_FIELDS;
  }

  /** The two accepted shapes: the current one with its version, and the legacy one. */
  predicate KnownShape(payload: Payload) {
    || payload.Keys == LEGACY_DISPATCH_FIELDS
    || (payload.Keys == VERSIONED_DISPATCH_FIELDS && payload[SCHEMA_VERSION] == TextValue(DISPATCH_PAYLOAD_VERSION))
  }

  /** Any other set of fields, and any other version, is refused; a known shape with
      readable fields is accepted, and its version makes no difference to the result. */
  lemma OtherShapesRefused(payload: Payload)
    ensures Decode(payload).Success? ==> KnownShape(payload)
    ensures KnownShape(payload) ==>
              (Decode(payload).Success? <==>
                 && ParseDecimal(StrOf(payload[TARGET_KW])).Some?
                 && ParseIso(StrOf(payload[STARTS_AT])).Some? && ParseIso(StrOf(payload[ENDS_AT])).Some?)
    ensures KnownShape(payload) ==> Decode(payload) == Decode(payload - {SCHEMA_VERSION})
  {
    hide ParseDecimal, ParseIso, StrOf;
    FieldNamesDiffer();
    if KnownShape(payload) {
      assert (payload - {SCHEMA_VERSION}).Keys == LEGACY_DISPATCH_FIELDS;
    }
  }

  /** What of an encoded signal is left in a payload is unchanged; fields may be missing or
      added, and the version is any. */
  predicate AgreesWith(payload: Payload, signal: DispatchSignal) {
    forall name :: name in LEGACY_DISPATCH_FIELDS && name in payload ==> payload[name] == DispatchPayload(signal)[name]
  }

  /** Of all payloads that agree with an encoded signal exactly the two known shapes
      decode, both to that signal; every other set of fields and every other version is
      refused. */
  lemma ShapeDecides(signal: DispatchSignal, payload: Payload)
    requires AgreesWith(payload, signal)
    ensures Decode(payload).Success? <==> KnownShape(payload)
    ensures KnownShape(payload) ==> Decode(payload) == Success(OnWire(signal))
  {
    hide FixedText, IsoText, ParseDecimal, ParseIso, Plain, StrOf, OnWire;
    PayloadRoundTrip(signal);
    OtherShapesRefused(payload);
    if KnownShape(payload) {
      FieldNamesDiffer();
      assert payload - {SCHEMA_VERSION} == LegacyPayload(signal);
    }
  }
}
