/** The JSON texts that are hashed and signed, and that they determine what they stand
    for. */
module WireForms {
  import opened Text
  import opened CanonicalJson
  import opened CanonicalJsonLaws
  import opened AuditChain

  predicate DistinctNames(items: seq<PyItem>) {
    forall i, j :: 0 <= i < j < |items| ==> items[i].key != items[j].key
  }

  /** A number that tells names of different length or first letter apart. */
  function Signature(name: string): int { if name == "" then 0 else 1000 * |name| + name[0] as int }

  /** Names whose signatures tell their places are different. */
  lemma DistinctBySignature(items: seq<PyItem>, place: int -> int)
    requires forall i :: 0 <= i < |items| ==> place(Signature(items[i].key)) == i
    ensures DistinctNames(items)
  {
    hide Signature;
    forall i, j | 0 <= i < j < |items| ensures items[i].key != items[j].key {
      assert place(Signature(items[i].key)) != place(Signature(items[j].key));
    }
  }

  predicate SameNames(a: seq<PyItem>, b: seq<PyItem>) {
    |a| == |b| && forall i :: 0 <= i < |a| ==> a[i].key == b[i].key
  }

  /** Two dicts over the same names have the same normal form only if their values have,
      name by name. */
  lemma FieldsAgree(a: seq<PyItem>, b: seq<PyItem>)
    requires DistinctNames(a) && SameNames(a, b) && Normalize(PyDict(a)) == Normalize(PyDict(b))
    ensures forall i :: 0 <= i < |a| ==> Normalize(a[i].value) == Normalize(b[i].value)
  {
    var x, y := SortedValues(RenderMembers(a)), SortedValues(RenderMembers(b));
    assert SortByKey(x) == SortByKey(y);
    hide SortByKey, SortedValues, RenderMembers, Sorted;
    forall i | 0 <= i < |a| ensures Normalize(a[i].value) == Normalize(b[i].value) {
      SortedMembersAgree(x, y, i);
    }
  }

  lemma SortedMembersAgree(x: seq<Member>, y: seq<Member>, i: nat)
    requires |x| == |y| && (forall j :: 0 <= j < |x| ==> x[j].key == y[j].key) && DistinctKeys(x)
    requires SortByKey(x) == SortByKey(y) && i < |x|
    ensures x[i] == y[i]
  {
    SortLaw(x);
    SortLaw(y);
    hide SortByKey;
    assert x[i] in SortByKey(x);
    var n :| 0 <= n < |y| && y[n] == x[i];
    assert x[n].key == x[i].key;
  }

  lemma SameTextSameNormal(p: Py, q: Py)
    requires CanonicalText(p) == CanonicalText(q)
    ensures Normalize(p) == Normalize(q)
  {
    LoadsCanonical(p);
    LoadsCanonical(q);
  }

  // -------------------------------------------------------------- audit events

  /** A payload as it is stored: read back from its own canonical text. */
  type StoredPayload = j: Json | WellKeyed(j) && Sorted(j) == j witness Null

  /** `audit_hash_material` */
  function MaterialItems(m: Material<StoredPayload>): seq<PyItem> {
    [PyItem("event_id", PyStr(m.eventId)),
     PyItem("aggregate_type", PyStr(m.aggregateType)),
     PyItem("aggregate_id", PyStr(m.aggregateId)),
     PyItem("event_type", PyStr(m.eventType)),
     PyItem("actor_id", PyStr(m.actorId)),
     PyItem("correlation_id", PyStr(m.correlationId)),
     PyItem("payload", AsPy(m.payload)),
     PyItem("occurred_at", PyStr(IsoText(m.occurredAt))),
     PyItem("previous_hash", PyStr(m.previousHash))]
  }

  lemma MaterialNamesDistinct(m: Material<StoredPayload>)
    ensures DistinctNames(MaterialItems(m))
  {
    assert "event_id"[0] == 'e' && "actor_id"[0] == 'a' && "aggregate_type"[0] == 'a' && "correlation_id"[0] == 'c';
  }

  /** `calculate_event_hash` for a given SHA-256. */
  function EventHash(sha: string -> string, m: Material<StoredPayload>): string {
    sha(CanonicalText(PyDict(MaterialItems(m))))
  }

  function EventDigest(sha: string -> string): Material<StoredPayload> -> string {
    m => EventHash(sha, m)
  }

  /** The hashed text determines every hashed field. */
  lemma MaterialTextInjective(a: Material<StoredPayload>, b: Material<StoredPayload>)
    requires CanonicalText(PyDict(MaterialItems(a))) == CanonicalText(PyDict(MaterialItems(b)))
    ensures a == b
  {
    hide CanonicalText, AsPy, IsoText, Sorted, WellKeyed, DistinctNames, Normalize;
    SameTextSameNormal(PyDict(MaterialItems(a)), PyDict(MaterialItems(b)));
    MaterialNamesDistinct(a);
    FieldsAgree(MaterialItems(a), MaterialItems(b));
    MaterialFields(a, b);
  }

  lemma MaterialFields(a: Material<StoredPayload>, b: Material<StoredPayload>)
    requires forall i :: 0 <= i < 9 ==> Normalize(MaterialItems(a)[i].value) == Normalize(MaterialItems(b)[i].value)
    ensures a == b
  {
    var x, y := MaterialItems(a), MaterialItems(b);
    hide AsPy, IsoText, WellKeyed;
    assert Normalize(x[0].value) == Normalize(y[0].value);
    assert Normalize(x[1].value) == Normalize(y[1].value);
    assert Normalize(x[2].value) == Normalize(y[2].value);
    assert Normalize(x[3].value) == Normalize(y[3].value);
    assert Normalize(x[4].value) == Normalize(y[4].value);
    assert Normalize(x[5].value) == Normalize(y[5].value);
    assert Normalize(x[6].value) == Normalize(y[6].value);
    assert Normalize(x[7].value) == Normalize(y[7].value);
    assert Normalize(x[8].value) == Normalize(y[8].value);
    IsoRoundTrip(a.occurredAt);
    IsoRoundTrip(b.occurredAt);
  }

  /** What is asked of SHA-256: no collisions, and never the genesis value. */
  ghost predicate Ideal(sha: string -> string) {
    (forall s, t :: sha(s) == sha(t) ==> s == t) && forall s :: sha(s) != GENESIS_HASH
  }

  /** Then event hashes are collision free. */
  lemma EventDigestCollisionFree(sha: string -> string)
    requires Ideal(sha)
    ensures CollisionFree(EventDigest(sha))
  {
    var digest := EventDigest(sha);
    forall a, b | digest(a) == digest(b) ensures a == b {
      MaterialTextInjective(a, b);
    }
  }
}
