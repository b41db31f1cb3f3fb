/** The JSON form of a settlement's evidence manifest, and what its hash vouches for. */
module EvidenceForms {
  import opened Decimals
  import opened CanonicalJson
  import opened CanonicalJsonLaws
  import opened WireForms
  import opened EventForms
  import opened Domain
  import opened Evidence
  import opened Machine
  import opened Guarantees

  /** The manifest of `settle_reservation`; figures are formatted texts. */
  function ManifestItems(m: Manifest): seq<PyItem> {
    [PyItem("schema_version", PyStr("1.0")),
     PyItem("settlement_id", PyStr(m.settlementId)),
     PyItem("reservation_id", PyStr(m.reservationId)),
     PyItem("offer_id", PyStr(m.offerId)),
     PyItem("asset_id", PyStr(m.assetId)),
     PyItem("dispatch_id", PyStr(m.dispatchId)),
     PyItem("meter_reading_ids", PyList(Texts(m.readingIds))),
     PyItem("delivered_kwh", PyStr(FixedText(m.delivered))),
     PyItem("price_per_kwh", PyStr(FixedText(m.price))),
     PyItem("amount", PyStr(FixedText(m.amount))),
     PyItem("audit_event_id", PyStr(m.auditEventId)),
     PyItem("audit_head_hash", PyStr(m.auditHeadHash))]
  }

  function ManifestJson(m: Manifest): Json { Render(PyDict(ManifestItems(m))) }

  /** Where a name stands in the manifest, by its signature: 1000 times its length plus the
      code of its first letter, so 14115 is the place of a name of 14 letters that begins
      with `s`. */
  function ManifestPlace(signature: int): int {
    match signature
    case 14115 => 0
    case 13115 => 1
    case 14114 => 2
    case 8111 => 3
    case 8097 => 4
    case 11100 => 5
    case 17109 => 6
    case 13100 => 7
    case 13112 => 8
    case 6097 => 9
    case 14097 => 10
    case 15097 => 11
    case _ => -1
  }

  lemma ManifestNamesDistinct(m: Manifest)
    ensures DistinctNames(ManifestItems(m))
  {
    ManifestPlaces(m);
    hide ManifestPlace, Signature;
    DistinctBySignature(ManifestItems(m), signature => ManifestPlace(signature));
  }

  lemma ManifestPlaces(m: Manifest)
    ensures forall i :: 0 <= i < 12 ==> ManifestPlace(Signature(ManifestItems(m)[i].key)) == i
  {
    hide FixedText, Texts;
  }

  lemma ManifestWellKeyed(m: Manifest)
    ensures WellKeyed(ManifestJson(m))
  {
    ManifestNamesDistinct(m);
    var items := ManifestItems(m);
    forall i | 0 <= i < |items| ensures WellKeyed(Render(items[i].value)) { ManifestValue(m, i); }
    hide FixedText;
  }

  lemma ManifestValue(m: Manifest, i: nat)
    requires i < |ManifestItems(m)|
    ensures WellKeyed(Render(ManifestItems(m)[i].value))
  {
    hide FixedText;
    FlatWellKeyed(ManifestItems(m)[i].value);
  }

  /** `sha256_json` of a manifest, for a given SHA-256. */
  ghost predicate HashesManifests(h: Hashes, sha: string -> string) {
    forall m :: h.manifest(m) == sha(CanonicalText(PyDict(ManifestItems(m))))
  }

  /** The hash check of `settlement_evidence`, on whatever JSON object is stored. */
  predicate HashValid(sha: string -> string, stored: Json, evidenceHash: string) {
    sha(CanonicalText(AsPy(stored))) == evidenceHash
  }

  /** In every reachable state the hash check of a settlement accepts a stored object if
      and only if that is the manifest of the settlement up to the order of its names, so
      in particular the manifest as the database gives it back, in whatever order. */
  lemma EvidenceHashDecides(h: Hashes, sha: string -> string, max: nat, w: World, id: string, stored: Json)
    requires Ideal(sha) && HashesManifests(h, sha)
    requires max >= 1 && Reachable(h, max, w) && id in w.db.settlements && WellKeyed(stored)
    ensures HashValid(sha, stored, w.db.settlements[id].evidenceHash) <==>
              Same(stored, ManifestJson(w.db.settlements[id].manifest))
  {
    hide Reachable, Evidenced, Coordination.Energies, ExactBill, CanonicalText, Same, WellKeyed;
    EvidenceRecomputes(h, max, w, id);
    var s := w.db.settlements[id];
    EvidencedHash(h, w.db, id, s);
    ManifestWellKeyed(s.manifest);
    TextDecidesValue(AsPy(stored), PyDict(ManifestItems(s.manifest)));
  }

  lemma EvidencedHash(h: Hashes, db: Db, id: string, s: Settlement)
    requires Evidenced(h, db, id, s)
    ensures s.evidenceHash == h.manifest(s.manifest)
  {
  }

  /** The manifest read back from its own canonical text passes the check. */
  lemma StoredManifestRehashes(h: Hashes, sha: string -> string, max: nat, w: World, id: string)
    requires HashesManifests(h, sha) && max >= 1 && Reachable(h, max, w) && id in w.db.settlements
    ensures var stored := Loads(CanonicalText(PyDict(ManifestItems(w.db.settlements[id].manifest))));
            stored.Some? && HashValid(sha, stored.value, w.db.settlements[id].evidenceHash)
  {
    hide Reachable, Evidenced, Coordination.Energies, ExactBill, CanonicalText, WellKeyed;
    EvidenceRecomputes(h, max, w, id);
    var s := w.db.settlements[id];
    EvidencedHash(h, w.db, id, s);
    ManifestWellKeyed(s.manifest);
    StoredPayloadRehashes(PyDict(ManifestItems(s.manifest)));
  }

  /** The text of a manifest determines all of it, up to the exponents of its figures. */
  lemma ManifestTextInjective(m: Manifest, n: Manifest)
    requires CanonicalText(PyDict(ManifestItems(m))) == CanonicalText(PyDict(ManifestItems(n)))
    ensures m.(delivered := n.delivered, price := n.price, amount := n.amount) == n
    ensures Plain(m.delivered) == Plain(n.delivered) && Plain(m.price) == Plain(n.price)
    ensures Plain(m.amount) == Plain(n.amount)
  {
    hide CanonicalText, FixedText, Sorted, Texts, DistinctNames, Normalize, Plain;
    SameTextSameNormal(PyDict(ManifestItems(m)), PyDict(ManifestItems(n)));
    ManifestNamesDistinct(m);
    FieldsAgree(ManifestItems(m), ManifestItems(n));
    ManifestFields(m, n);
  }

  lemma ManifestFields(m: Manifest, n: Manifest)
    requires forall i :: 0 <= i < 12 ==> Normalize(ManifestItems(m)[i].value) == Normalize(ManifestItems(n)[i].value)
    ensures m.(delivered := n.delivered, price := n.price, amount := n.amount) == n
    ensures Plain(m.delivered) == Plain(n.delivered) && Plain(m.price) == Plain(n.price)
    ensures Plain(m.amount) == Plain(n.amount)
  {
    var x, y := ManifestItems(m), ManifestItems(n);
    hide FixedText, Texts, ParseDecimal, Plain;
    assert Normalize(x[1].value) == Normalize(y[1].value) && Normalize(x[2].value) == Normalize(y[2].value);
    assert Normalize(x[3].value) == Normalize(y[3].value) && Normalize(x[4].value) == Normalize(y[4].value);
    assert Normalize(x[5].value) == Normalize(y[5].value) && Normalize(x[6].value) == Normalize(y[6].value);
    assert Normalize(x[7].value) == Normalize(y[7].value) && Normalize(x[8].value) == Normalize(y[8].value);
    assert Normalize(x[9].value) == Normalize(y[9].value) && Normalize(x[10].value) == Normalize(y[10].value);
    assert Normalize(x[11].value) == Normalize(y[11].value);
    FixedRoundTrip(m.delivered);
    FixedRoundTrip(n.delivered);
    FixedRoundTrip(m.price);
    FixedRoundTrip(n.price);
    FixedRoundTrip(m.amount);
    FixedRoundTrip(n.amount);
    TextListInjective(m.readingIds, n.readingIds);
  }

  lemma TextListInjective(a: seq<string>, b: seq<string>)
    requires Normalize(PyList(Texts(a))) == Normalize(PyList(Texts(b)))
    ensures a == b
  {
    var x, y := Normalize(PyList(Texts(a))).items, Normalize(PyList(Texts(b))).items;
    assert |x| == |a| && |y| == |b|;
    forall i | 0 <= i < |a| ensures a[i] == b[i] {
      assert x[i] == Str(a[i]) && y[i] == Str(b[i]);
    }
  }
}
