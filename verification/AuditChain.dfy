/** The hash-linked audit log. `P` is the type of event payloads and `digest` the hash
    of an event's material, an arbitrary function; results about tampering assume that
    it has no collisions and never gives the genesis value. */
module AuditChain {
  import opened Wrappers
  import opened Text

  const GENESIS_HASH: string := Zeros(64)

  /** The hashed fields of an event (`audit_hash_material`). */
  datatype Material<P> = Material(
    eventId: string,
    aggregateType: string,
    aggregateId: string,
    eventType: string,
    actorId: string,
    correlationId: string,
    payload: P,
    occurredAt: int,
    previousHash: string)

  /** A stored event; logs are listed in order of `sequence`. */
  datatype AuditEvent<P> = AuditEvent(sequence: int, hashed: Material<P>, eventHash: string)

  function HeadHash<P>(log: seq<AuditEvent<P>>): string {
    if log == [] then GENESIS_HASH else log[|log| - 1].eventHash
  }

  /** The event that `append_event` adds for the given draft: linked to the head and
      hashed with that link. */
  function NextEvent<P>(digest: Material<P> -> string, log: seq<AuditEvent<P>>, draft: Material<P>): AuditEvent<P> {
    var material := draft.(previousHash := HeadHash(log));
    AuditEvent(if log == [] then 1 else log[|log| - 1].sequence + 1, material, digest(material))
  }

  /** The check of one event in `verify_chain`. */
  predicate Intact<P>(digest: Material<P> -> string, log: seq<AuditEvent<P>>, i: nat)
    requires i < |log|
  {
    && log[i].hashed.previousHash == HeadHash(log[..i])
    && digest(log[i].hashed) == log[i].eventHash
  }

  predicate Valid<P>(digest: Material<P> -> string, log: seq<AuditEvent<P>>) {
    forall i :: 0 <= i < |log| ==> Intact(digest, log, i)
  }

  ghost predicate CollisionFree<P(!new)>(digest: Material<P> -> string) {
    && (forall x, y :: digest(x) == digest(y) ==> x == y)
    && (forall x :: digest(x) != GENESIS_HASH)
  }

  // ------------------------------------------------------------ verification

  datatype AuditVerification = AuditVerification(
    valid: bool,
    eventCount: nat,
    headHash: string,
    brokenSequence: Option<int>)

  /** Position of the first event that is not intact, or the length of the log. */
  function FirstBroken<P>(digest: Material<P> -> string, log: seq<AuditEvent<P>>, from: nat := 0): (k: nat)
    requires from <= |log|
    ensures from <= k <= |log|
    ensures forall i :: from <= i < k ==> Intact(digest, log, i)
    ensures k < |log| ==> !Intact(digest, log, k)
    decreases |log| - from
  {
    if from == |log| || !Intact(digest, log, from) then from else FirstBroken(digest, log, from + 1)
  }

  function Verdict<P>(digest: Material<P> -> string, log: seq<AuditEvent<P>>): AuditVerification {
    var k := FirstBroken(digest, log);
    AuditVerification(k == |log|, |log|, HeadHash(log),
                      if k == |log| then None else Some(log[k].sequence))
  }

  /** An event follows the log before it and carries the hash of its own fields. */
  predicate Follows<P>(digest: Material<P> -> string, log: seq<AuditEvent<P>>, i: nat)
    requires i < |log|
  {
    && log[i].hashed.previousHash == (if i == 0 then Zeros(64) else log[i - 1].eventHash)
    && log[i].eventHash == digest(log[i].hashed)
  }

  /** The verdict: valid if and only if every event follows the one before it; the number of
      events; the hash of the last one, or sixty-four zeros; and the sequence number of the
      first event that does not follow. */
  lemma VerdictTells<P>(digest: Material<P> -> string, log: seq<AuditEvent<P>>)
    ensures var v := Verdict(digest, log);
            && (v.valid <==> forall i :: 0 <= i < |log| ==> Follows(digest, log, i))
            && v.eventCount == |log|
            && v.headHash == (if log == [] then Zeros(64) else log[|log| - 1].eventHash)
            && (v.brokenSequence.None? <==> v.valid)
            && (!v.valid ==>
                  exists k :: 0 <= k < |log| && v.brokenSequence == Some(log[k].sequence) && !Follows(digest, log, k)
                              && forall i :: 0 <= i < k ==> Follows(digest, log, i))
  {
    hide Zeros;
    forall i | 0 <= i < |log| ensures Intact(digest, log, i) <==> Follows(digest, log, i) {
      if i > 0 { assert log[..i][i - 1] == log[i - 1]; }
    }
    hide Intact, Follows;
    var k := FirstBroken(digest, log);
    if k < |log| { assert !Follows(digest, log, k); }
  }

  method VerifyChain<P(==)>(digest: Material<P> -> string, events: seq<AuditEvent<P>>) returns (v: AuditVerification)
    ensures v == Verdict(digest, events)
    ensures v.valid <==> Valid(digest, events)
  {
    hide Zeros, Intact;
    var expectedPrevious := GENESIS_HASH;
    for i := 0 to |events|
      invariant expectedPrevious == HeadHash(events[..i])
      invariant forall j :: 0 <= j < i ==> Intact(digest, events, j)
    {
      var event := events[i];
      IntactMeans(digest, events, i);
      if event.hashed.previousHash != expectedPrevious || digest(event.hashed) != event.eventHash {
        FirstBrokenIs(digest, events, i);
        return AuditVerification(false, |events|, events[|events| - 1].eventHash, Some(event.sequence));
      }
      expectedPrevious := event.eventHash;
      assert events[..i + 1] == events[..i] + [event];
    }
    assert events[..|events|] == events;
    assert FirstBroken(digest, events) == |events|;
    v := AuditVerification(true, |events|, expectedPrevious, None);
  }

  lemma IntactMeans<P>(digest: Material<P> -> string, log: seq<AuditEvent<P>>, i: nat)
    requires i < |log|
    ensures Intact(digest, log, i)
            <==> log[i].hashed.previousHash == HeadHash(log[..i]) && digest(log[i].hashed) == log[i].eventHash
  {
  }

  lemma FirstBrokenIs<P>(digest: Material<P> -> string, log: seq<AuditEvent<P>>, i: nat)
    requires i < |log| && !Intact(digest, log, i)
    requires forall j :: 0 <= j < i ==> Intact(digest, log, j)
    ensures FirstBroken(digest, log) == i
  {
  }

  /** Two logs that are intact at the same places break at the same place. */
  lemma SameBreaks<P, Q>(digest: Material<P> -> string, log: seq<AuditEvent<P>>, digest': Material<Q> -> string,
                         log': seq<AuditEvent<Q>>)
    requires |log| == |log'|
    requires forall i :: 0 <= i < |log| ==> (Intact(digest, log, i) <==> Intact(digest', log', i))
    ensures FirstBroken(digest, log) == FirstBroken(digest', log')
    ensures Valid(digest, log) <==> Valid(digest', log')
  {
    hide Intact;
    var k := FirstBroken(digest, log);
    if k < |log| { FirstBrokenIs(digest', log', k); }
  }

  // ---------------------------------------------------- what append produces

  /** A log is built by `append_event` alone. */
  ghost predicate Built<P>(digest: Material<P> -> string, log: seq<AuditEvent<P>>)
    decreases |log|
  {
    log == []
    || (var before := log[..|log| - 1];
        && Built(digest, before)
        && log == before + [NextEvent(digest, before, log[|log| - 1].hashed)])
  }

  lemma AppendKeepsValid<P>(digest: Material<P> -> string, log: seq<AuditEvent<P>>, draft: Material<P>)
    requires Valid(digest, log)
    ensures Valid(digest, log + [NextEvent(digest, log, draft)])
  {
    var longer := log + [NextEvent(digest, log, draft)];
    forall i | 0 <= i < |longer| ensures Intact(digest, longer, i) {
      if i < |log| {
        assert Intact(digest, log, i);
        assert longer[..i] == log[..i];
      } else {
        assert longer[..i] == log;
      }
    }
  }

  lemma PrefixValid<P>(digest: Material<P> -> string, log: seq<AuditEvent<P>>, n: nat)
    requires Valid(digest, log) && n <= |log|
    ensures Valid(digest, log[..n])
  {
    forall i | 0 <= i < n ensures Intact(digest, log[..n], i) {
      assert Intact(digest, log, i);
      assert log[..n][..i] == log[..i];
    }
  }

  /** The verifier accepts every log built by appending, and every prefix of one. */
  lemma {:induction false} BuiltAccepted<P>(digest: Material<P> -> string, log: seq<AuditEvent<P>>, n: nat)
    requires Built(digest, log) && n <= |log|
    ensures Verdict(digest, log[..n]) == AuditVerification(true, n, HeadHash(log[..n]), None)
  {
    BuiltValid(digest, log);
    PrefixValid(digest, log, n);
  }

  lemma {:induction false} BuiltValid<P>(digest: Material<P> -> string, log: seq<AuditEvent<P>>)
    requires Built(digest, log)
    ensures Valid(digest, log)
    decreases |log|
  {
    if log != [] {
      var before := log[..|log| - 1];
      BuiltValid(digest, before);
      AppendKeepsValid(digest, before, log[|log| - 1].hashed);
    }
  }

  // ------------------------------------------------------- the head pins all

  lemma LastIntact<P>(digest: Material<P> -> string, log: seq<AuditEvent<P>>)
    requires Valid(digest, log) && log != []
    ensures var last := log[|log| - 1];
            && HeadHash(log) == last.eventHash == digest(last.hashed)
            && last.hashed.previousHash == HeadHash(log[..|log| - 1])
  {
    assert Intact(digest, log, |log| - 1);
  }

  /** Two accepted logs with the same head hash have the same length and agree on
      every hashed field of every event. */
  lemma {:induction false} HeadPinsLog<P(!new)>(digest: Material<P> -> string, a: seq<AuditEvent<P>>,
                                                b: seq<AuditEvent<P>>)
    requires CollisionFree(digest)
    requires Valid(digest, a) && Valid(digest, b)
    requires HeadHash(a) == HeadHash(b)
    ensures |a| == |b|
    ensures forall i :: 0 <= i < |a| ==> a[i].hashed == b[i].hashed && a[i].eventHash == b[i].eventHash
    decreases |a|
  {
    if a != [] { LastIntact(digest, a); }
    if b != [] { LastIntact(digest, b); }
    if a != [] && b != [] {
      var a', b' := a[..|a| - 1], b[..|b| - 1];
      PrefixValid(digest, a, |a| - 1);
      PrefixValid(digest, b, |b| - 1);
      HeadPinsLog(digest, a', b');
      hide Valid, Intact, CollisionFree;
      forall i | 0 <= i < |a| ensures a[i].hashed == b[i].hashed && a[i].eventHash == b[i].eventHash {
        if i < |a'| { assert a[i] == a'[i] && b[i] == b'[i]; }
      }
    }
  }

  /** A later accepted log whose n-th event hash is the head of an accepted log of
      length n has that log as its prefix. */
  lemma HeadPinsPrefix<P(!new)>(digest: Material<P> -> string, earlier: seq<AuditEvent<P>>, later: seq<AuditEvent<P>>)
    requires CollisionFree(digest)
    requires Valid(digest, earlier) && Valid(digest, later)
    requires |earlier| <= |later| && HeadHash(later[..|earlier|]) == HeadHash(earlier)
    ensures forall i :: 0 <= i < |earlier| ==>
              later[i].hashed == earlier[i].hashed && later[i].eventHash == earlier[i].eventHash
  {
    PrefixValid(digest, later, |earlier|);
    HeadPinsLog(digest, earlier, later[..|earlier|]);
  }

  /** Event hashes never repeat inside an accepted log, so the unique constraint on
      them cannot fire. */
  lemma HashesDistinct<P(!new)>(digest: Material<P> -> string, log: seq<AuditEvent<P>>, m: nat, n: nat)
    requires CollisionFree(digest) && Valid(digest, log)
    requires m <= |log| && n <= |log| && HeadHash(log[..m]) == HeadHash(log[..n])
    ensures m == n
  {
    PrefixValid(digest, log, m);
    PrefixValid(digest, log, n);
    HeadPinsLog(digest, log[..m], log[..n]);
  }

  // ----------------------------------------------------------- what is caught

  /** Changed fields under an unchanged stored hash are reported at that event. */
  lemma EditCaught<P(!new)>(digest: Material<P> -> string, log: seq<AuditEvent<P>>, i: nat, forged: Material<P>)
    requires CollisionFree(digest) && Valid(digest, log)
    requires i < |log| && forged != log[i].hashed
    ensures FirstBroken(digest, log[i := log[i].(hashed := forged)]) == i
  {
    var t := log[i := log[i].(hashed := forged)];
    assert Intact(digest, log, i);
    EarlierIntact(digest, log, t, i);
    FirstBrokenIs(digest, t, i);
  }

  lemma EarlierIntact<P>(digest: Material<P> -> string, log: seq<AuditEvent<P>>, t: seq<AuditEvent<P>>, i: nat)
    requires Valid(digest, log) && i <= |log| && i <= |t| && t[..i] == log[..i]
    ensures forall j :: 0 <= j < i ==> Intact(digest, t, j)
  {
    forall j | 0 <= j < i ensures Intact(digest, t, j) {
      assert Intact(digest, log, j);
      assert t[j] == t[..i][j] == log[j];
      assert t[..j] == t[..i][..j] == log[..j];
    }
  }

  /** Changed fields under a recomputed hash are reported at once if the link was changed,
      and at the next event otherwise; only the last event can be rewritten unnoticed. */
  lemma RehashedEditCaught<P(!new)>(digest: Material<P> -> string, log: seq<AuditEvent<P>>, i: nat, forged: Material<P>)
    requires CollisionFree(digest) && Valid(digest, log)
    requires i < |log| && forged != log[i].hashed
    ensures FirstBroken(digest, log[i := AuditEvent(log[i].sequence, forged, digest(forged))])
            == if forged.previousHash == log[i].hashed.previousHash then i + 1 else i
    ensures Verdict(digest, log[i := AuditEvent(log[i].sequence, forged, digest(forged))]).valid
            <==> forged.previousHash == log[i].hashed.previousHash && i == |log| - 1
  {
    var t := log[i := AuditEvent(log[i].sequence, forged, digest(forged))];
    assert Intact(digest, log, i);
    EarlierIntact(digest, log, t, i);
    assert t[..i] == log[..i];
    if forged.previousHash != log[i].hashed.previousHash {
      FirstBrokenIs(digest, t, i);
    } else {
      assert Intact(digest, t, i);
      if i + 1 < |log| {
        assert Intact(digest, log, i + 1);
        assert t[..i + 1][i] == t[i] && log[..i + 1][i] == log[i];
        FirstBrokenIs(digest, t, i + 1);
      }
    }
  }

  /** Deleting the events from `i` up to `j` is reported at the first survivor after
      the gap; only a cut at the end of the log is accepted. */
  lemma DeletionCaught<P(!new)>(digest: Material<P> -> string, log: seq<AuditEvent<P>>, i: nat, j: nat)
    requires CollisionFree(digest) && Valid(digest, log)
    requires i < j <= |log|
    ensures FirstBroken(digest, log[..i] + log[j..]) == i
    ensures Verdict(digest, log[..i] + log[j..]).valid <==> j == |log|
    ensures j < |log| ==> Verdict(digest, log[..i] + log[j..]).brokenSequence == Some(log[j].sequence)
  {
    var t := log[..i] + log[j..];
    assert t[..i] == log[..i];
    EarlierIntact(digest, log, t, i);
    if j < |log| {
      assert Intact(digest, log, j);
      if HeadHash(log[..i]) == HeadHash(log[..j]) { HashesDistinct(digest, log, i, j); }
      assert t[i] == log[j];
      FirstBrokenIs(digest, t, i);
    }
  }

  /** Whatever is dropped, repeated or reordered, the only accepted arrangements of the
      events of an accepted log are its prefixes. */
  lemma {:induction false} ArrangementsArePrefixes<P(!new)>(digest: Material<P> -> string, log: seq<AuditEvent<P>>,
                                                            t: seq<AuditEvent<P>>)
    requires CollisionFree(digest) && Valid(digest, log)
    requires forall i :: 0 <= i < |t| ==> t[i] in log
    ensures Valid(digest, t) <==> |t| <= |log| && t == log[..|t|]
    decreases |t|
  {
    hide Valid, CollisionFree;
    if Valid(digest, t) && t != [] {
      var n := |t| - 1;
      PrefixValid(digest, t, n);
      ArrangementsArePrefixes(digest, log, t[..n]);
      assert t[n] in log;
      LastContinues(digest, log, t);
    }
    if |t| <= |log| && t == log[..|t|] { PrefixValid(digest, log, |t|); }
  }

  /** An event of the log that may follow a beginning of it is the next one. */
  lemma LastContinues<P(!new)>(digest: Material<P> -> string, log: seq<AuditEvent<P>>, t: seq<AuditEvent<P>>)
    requires CollisionFree(digest) && Valid(digest, log) && Valid(digest, t) && t != [] && t[|t| - 1] in log
    requires |t| - 1 <= |log| && t[..|t| - 1] == log[..|t| - 1]
    ensures |t| <= |log| && t == log[..|t|]
  {
    var n := |t| - 1;
    LastIntact(digest, t);
    var k :| 0 <= k < |log| && log[k] == t[n];
    assert Intact(digest, log, k);
    hide Valid, CollisionFree;
    HashesDistinct(digest, log, k, n);
    assert t == t[..n] + [t[n]];
    assert log[..n + 1] == log[..n] + [log[n]];
  }
}
