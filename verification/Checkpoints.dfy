/** Signed checkpoints of the audit chain. Keys and signatures are opaque texts; signing
    and verifying are arbitrary functions. */
module Checkpoints {
  import opened Wrappers
  import opened Text
  import opened CanonicalJson
  import opened AuditChain
  import opened WireForms

  const CHECKPOINT_VERSION := "energy-flex-audit-checkpoint.v1"

  datatype AuditCheckpoint = AuditCheckpoint(
    version: string, keyId: string, eventCount: nat, headHash: string, issuedAt: string, signature: string)

  datatype Signer = Signer(keyId: string, sign: string -> string)

  datatype CheckpointError = InvalidChain

  function UnsignedItems(c: AuditCheckpoint): seq<PyItem> {
    [PyItem("version", PyStr(c.version)),
     PyItem("key_id", PyStr(c.keyId)),
     PyItem("event_count", PyInt(c.eventCount)),
     PyItem("head_hash", PyStr(c.headHash)),
     PyItem("issued_at", PyStr(c.issuedAt))]
  }

  /** `AuditCheckpoint.signing_payload` */
  function SigningPayload(c: AuditCheckpoint): string { CanonicalText(PyDict(UnsignedItems(c))) }

  /** `create_checkpoint` */
  function CreateCheckpoint(v: AuditVerification, signer: Signer, issuedAt: Zoned)
    : Result<AuditCheckpoint, CheckpointError>
  {
    if !v.valid then Failure(InvalidChain)
    else
      var unsigned := AuditCheckpoint(CHECKPOINT_VERSION, signer.keyId, v.eventCount, v.headHash,
                                      IsoText(AsUtc(issuedAt).instant), "");
      Success(unsigned.(signature := signer.sign(SigningPayload(unsigned))))
  }

  /** `verify_checkpoint`; `verifies` covers decoding of key and signature as well. */
  predicate VerifyCheckpoint(c: AuditCheckpoint, trusted: map<string, string>,
                             verifies: (string, string, string) -> bool) {
    && c.version == CHECKPOINT_VERSION
    && c.keyId in trusted
    && verifies(trusted[c.keyId], SigningPayload(c), c.signature)
  }

  // ---------------------------------------------------------------- promises

  lemma UnsignedNamesDistinct(c: AuditCheckpoint)
    ensures DistinctNames(UnsignedItems(c))
  {
    assert "head_hash"[0] == 'h' && "issued_at"[0] == 'i';
  }

  /** The signed text determines every field but the signature. */
  lemma SigningPayloadInjective(c: AuditCheckpoint, d: AuditCheckpoint)
    requires SigningPayload(c) == SigningPayload(d)
    ensures c.(signature := d.signature) == d
  {
    SameTextSameNormal(PyDict(UnsignedItems(c)), PyDict(UnsignedItems(d)));
    UnsignedNamesDistinct(c);
    FieldsAgree(UnsignedItems(c), UnsignedItems(d));
    hide CanonicalText;
    var x, y := UnsignedItems(c), UnsignedItems(d);
    assert Normalize(x[0].value) == Normalize(y[0].value);
    assert Normalize(x[1].value) == Normalize(y[1].value);
    assert Normalize(x[2].value) == Normalize(y[2].value);
    assert Normalize(x[3].value) == Normalize(y[3].value);
    assert Normalize(x[4].value) == Normalize(y[4].value);
  }

  /** A checkpoint is made exactly of valid chains, and is accepted by whoever trusts the
      signer's key if the scheme accepts the signature on it. */
  lemma CreatedIsAccepted(v: AuditVerification, signer: Signer, issuedAt: Zoned, trusted: map<string, string>,
                          verifies: (string, string, string) -> bool)
    requires signer.keyId in trusted
    requires CreateCheckpoint(v, signer, issuedAt).Success? ==>
               var c := CreateCheckpoint(v, signer, issuedAt).value;
               verifies(trusted[signer.keyId], SigningPayload(c), c.signature)
    ensures CreateCheckpoint(v, signer, issuedAt).Success? <==> v.valid
    ensures CreateCheckpoint(v, signer, issuedAt).Success? ==>
              var c := CreateCheckpoint(v, signer, issuedAt).value;
              && VerifyCheckpoint(c, trusted, verifies)
              && c.version == "energy-flex-audit-checkpoint.v1" && c.keyId == signer.keyId
              && c.eventCount == v.eventCount && c.headHash == v.headHash
              && ParseIso(c.issuedAt) == Some(Zoned(issuedAt.instant, 0))
              && c.signature == signer.sign(SigningPayload(c))
  {
    hide CanonicalText, ParseIso, IsoText;
    IsoRoundTrip(issuedAt.instant);
    if v.valid {
      var c := CreateCheckpoint(v, signer, issuedAt).value;
      assert UnsignedItems(c) == UnsignedItems(c.(signature := ""));
      assert SigningPayload(c) == SigningPayload(c.(signature := ""));
    }
  }

  /** The texts that a signer has signed as checkpoints. */
  ghost predicate SignedOnly(key: string, issued: set<AuditCheckpoint>, verifies: (string, string, string) -> bool) {
    forall p, s :: verifies(key, p, s) ==> exists c :: c in issued && p == SigningPayload(c)
  }

  /** If signatures under a trusted key verify only for what its holder signed, then an
      accepted checkpoint says what one of those it issued said: no field can be changed
      in transit, and no other version is accepted. */
  lemma AcceptedWasIssued(c: AuditCheckpoint, trusted: map<string, string>, verifies: (string, string, string) -> bool,
                          issued: set<AuditCheckpoint>)
    requires c.keyId in trusted && SignedOnly(trusted[c.keyId], issued, verifies)
    requires VerifyCheckpoint(c, trusted, verifies)
    ensures exists d :: d in issued && c.(signature := d.signature) == d
    ensures c.version == "energy-flex-audit-checkpoint.v1"
  {
    hide SigningPayload;
    var d :| d in issued && SigningPayload(c) == SigningPayload(d);
    SigningPayloadInjective(c, d);
  }

  /** A checkpoint pins history: once it is made of a log, any later accepted log whose
      event number `eventCount` carries its head hash begins with that very log, and an
      accepted log with its count and head is that log. */
  lemma CheckpointPinsHistory<P(!new)>(digest: Material<P> -> string, log: seq<AuditEvent<P>>, signer: Signer,
                                       issuedAt: Zoned, later: seq<AuditEvent<P>>)
    requires CollisionFree(digest) && CreateCheckpoint(Verdict(digest, log), signer, issuedAt).Success?
    requires Verdict(digest, later).valid
    ensures var c := CreateCheckpoint(Verdict(digest, log), signer, issuedAt).value;
            && (c.eventCount <= |later| && HeadHash(later[..c.eventCount]) == c.headHash <==>
                  |log| <= |later| && forall i :: 0 <= i < |log| ==> later[i].hashed == log[i].hashed)
            && (Verdict(digest, later).eventCount == c.eventCount && Verdict(digest, later).headHash == c.headHash <==>
                  |later| == |log| && forall i :: 0 <= i < |log| ==> later[i].hashed == log[i].hashed)
  {
    hide CanonicalText, SigningPayload;
    var c := CreateCheckpoint(Verdict(digest, log), signer, issuedAt).value;
    assert Valid(digest, log) && Valid(digest, later);
    if |log| <= |later| {
      if HeadHash(later[..|log|]) == HeadHash(log) { HeadPinsPrefix(digest, log, later); }
      if forall i :: 0 <= i < |log| ==> later[i].hashed == log[i].hashed { SameFieldsSameHead(digest, log, later); }
    }
    if |later| == |log| { assert later[..|log|] == later; }
  }

  /** What a signer has issued: checkpoints that it made of accepted logs. */
  ghost predicate IssuedBy<P(!new)>(digest: Material<P> -> string, signer: Signer, issued: set<AuditCheckpoint>) {
    forall d :: d in issued ==> IssuedFor(digest, signer, d)
  }

  ghost predicate IssuedFor<P(!new)>(digest: Material<P> -> string, signer: Signer, d: AuditCheckpoint) {
    exists log, at :: CreateCheckpoint(Verdict(digest, log), signer, at) == Success(d)
  }

  /** The signatures on what was issued verify. */
  ghost predicate SignaturesHold(key: string, issued: set<AuditCheckpoint>,
                                 verifies: (string, string, string) -> bool) {
    forall d :: d in issued ==> verifies(key, SigningPayload(d), d.signature)
  }

  /** These hypotheses go together, for a checkpoint of any accepted log. */
  lemma SchemePossible<P(!new)>(digest: Material<P> -> string, log: seq<AuditEvent<P>>, signer: Signer, at: Zoned)
    requires Valid(digest, log)
    ensures exists c, key, verifies ::
              && CreateCheckpoint(Verdict(digest, log), signer, at) == Success(c)
              && IssuedBy(digest, signer, {c}) && SignedOnly(key, {c}, verifies) && SignaturesHold(key, {c}, verifies)
              && VerifyCheckpoint(c, map[signer.keyId := key], verifies)
  {
    hide SigningPayload, IsoText, Valid;
    AcceptedVerdict(digest, log);
    var v := Verdict(digest, log);
    var c := CreateCheckpoint(v, signer, at).value;
    var key, trusted := "key", map[signer.keyId := "key"];
    var verifies := (k: string, p: string, s: string) => p == SigningPayload(c);
    assert IssuedFor(digest, signer, c);
    assert SignedOnly(key, {c}, verifies) && SignaturesHold(key, {c}, verifies);
    CreatedIsAccepted(v, signer, at, trusted, verifies);
  }

  /** With a sound signature scheme an auditor who trusts the signer accepts everything it
      issued, and only checkpoints that pin the history of an accepted log: any later
      accepted log carries the head at the count if and only if it begins with that log. */
  lemma AcceptedPinsHistory<P(!new)>(digest: Material<P> -> string, signer: Signer, trusted: map<string, string>,
                                     verifies: (string, string, string) -> bool, issued: set<AuditCheckpoint>,
                                     c: AuditCheckpoint)
    requires CollisionFree(digest) && IssuedBy(digest, signer, issued)
    requires signer.keyId in trusted && SignedOnly(trusted[signer.keyId], issued, verifies)
    requires SignaturesHold(trusted[signer.keyId], issued, verifies)
    ensures c in issued ==> VerifyCheckpoint(c, trusted, verifies)
    ensures c.keyId == signer.keyId && VerifyCheckpoint(c, trusted, verifies) ==>
              exists log :: Valid(digest, log) && Pins(digest, c, log)
  {
    hide VerifyCheckpoint, CreateCheckpoint, SignedOnly, Verdict, Pins, Valid, CollisionFree, SigningPayload;
    if c in issued {
      var log, at :| CreateCheckpoint(Verdict(digest, log), signer, at) == Success(c);
      CreatedIsAccepted(Verdict(digest, log), signer, at, trusted, verifies);
    }
    if c.keyId == signer.keyId && VerifyCheckpoint(c, trusted, verifies) {
      AcceptedWasIssued(c, trusted, verifies, issued);
      var d :| d in issued && c.(signature := d.signature) == d;
      var log, at :| CreateCheckpoint(Verdict(digest, log), signer, at) == Success(d);
      IssuedPins(digest, log, signer, at, c);
    }
  }

  /** The later accepted logs that carry the head of a checkpoint at its count are those
      that begin with the given log. */
  ghost predicate Pins<P(!new)>(digest: Material<P> -> string, c: AuditCheckpoint, log: seq<AuditEvent<P>>) {
    forall later :: Valid(digest, later) ==>
      (c.eventCount <= |later| && HeadHash(later[..c.eventCount]) == c.headHash <==> BeginsWith(later, log))
  }

  predicate BeginsWith<P(==)>(later: seq<AuditEvent<P>>, log: seq<AuditEvent<P>>) {
    |log| <= |later| && forall i :: 0 <= i < |log| ==> later[i].hashed == log[i].hashed
  }

  lemma IssuedPins<P(!new)>(digest: Material<P> -> string, log: seq<AuditEvent<P>>, signer: Signer, at: Zoned,
                            c: AuditCheckpoint)
    requires CollisionFree(digest) && CreateCheckpoint(Verdict(digest, log), signer, at).Success?
    requires var d := CreateCheckpoint(Verdict(digest, log), signer, at).value;
             c.eventCount == d.eventCount && c.headHash == d.headHash
    ensures Valid(digest, log) && Pins(digest, c, log)
  {
    hide SigningPayload, IsoText;
    forall later | Valid(digest, later)
      ensures c.eventCount <= |later| && HeadHash(later[..c.eventCount]) == c.headHash <==> BeginsWith(later, log)
    {
      AcceptedVerdict(digest, later);
      CheckpointPinsHistory(digest, log, signer, at, later);
    }
    hide CollisionFree;
  }

  lemma AcceptedVerdict<P>(digest: Material<P> -> string, log: seq<AuditEvent<P>>)
    requires Valid(digest, log)
    ensures Verdict(digest, log).valid
  {
  }

  lemma SameFieldsSameHead<P>(digest: Material<P> -> string, log: seq<AuditEvent<P>>, later: seq<AuditEvent<P>>)
    requires Valid(digest, log) && Valid(digest, later) && |log| <= |later|
    requires forall i :: 0 <= i < |log| ==> later[i].hashed == log[i].hashed
    ensures HeadHash(later[..|log|]) == HeadHash(log)
  {
    if log != [] {
      assert Intact(digest, log, |log| - 1) && Intact(digest, later, |log| - 1);
    }
  }
}
