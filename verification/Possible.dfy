/** The hypotheses that the main results make about hashes and fault runs can be met. */
module Possible {
  import opened CanonicalJson
  import opened AuditChain
  import opened WireForms
  import opened EventForms
  import opened RequestForms
  import opened EvidenceForms
  import opened Fingerprints
  import opened Domain
  import opened Invariants
  import opened Replay
  import opened Evidence
  import opened MachineInvariants
  import opened Guarantees
  import opened Overdraft
  import opened Publishers
  import opened Batch
  import opened FaultRuns

  /** Prefixing a letter has no collisions and never gives the genesis value. */
  function Marked(s: string): string { "x" + s }

  lemma MarkedIdeal()
    ensures Ideal(Marked)
  {
    forall s, t | Marked(s) == Marked(t) ensures s == t {
      assert Marked(s)[1..] == s && Marked(t)[1..] == t;
    }
    forall s ensures Marked(s) != GENESIS_HASH {
      assert Marked(s)[0] == 'x' && GENESIS_HASH[0] == '0';
    }
  }

  /** A hash without collisions, and hash functions of the program built on it. */
  lemma HashesPossible()
    ensures exists h, sha ::
              && Ideal(sha) && HashesStored(h, sha) && HashesRequests(h, sha) && HashesManifests(h, sha)
              && HashesReadings(h, sha)
    ensures CollisionFree(EventDigest(Marked))
  {
    hide StoredMaterial, RequestText, CanonicalText, EventHash, Marked, Ideal;
    MarkedIdeal();
    EventDigestCollisionFree(Marked);
    var h := Hashes(m => EventHash(Marked, StoredMaterial(m)), r => Marked(RequestText(r)),
                    cmd => Marked(CanonicalText(PyDict(ReadingItems(cmd)))),
                    m => Marked(CanonicalText(PyDict(ManifestItems(m)))), Marked);
    assert HashesStored(h, Marked) && HashesRequests(h, Marked) && HashesManifests(h, Marked)
        && HashesReadings(h, Marked);
  }

  /** For every number of failures there are a database, a worker's surroundings and a clock
      that goes on, from which a fault run starts. */
  lemma FaultRunPossible(h: Hashes, max: nat, n: nat)
    requires max >= 1
    ensures exists db, env, id ::
              && Inv(max, db) && FailsFirst(env, n) && Advances(env) && OnlyWaiting(db.messages, id)
              && AtStage(max, Begin(db, Cursor(0, 0, 0)), id, n)
  {
    hide Reachable, Inv, FailsFirst, Advances, LogInv, EvidenceInv, TablesOk;
    var w := Enqueued(h, max);
    ReachableParts(h, max, w);
    var env := FaultyEnv(n);
    assert AtStage(max, Begin(w.db, Cursor(0, 0, 0)), "m", n);
  }

  /** A clock that shows the number of its reading, and a publisher that fails n calls. */
  lemma FaultyEnv(n: nat) returns (env: Env)
    ensures FailsFirst(env, n) && Advances(env)
  {
    env := Env((k: nat) => k as int, _ => "", _ => "",
               (k: nat, signal, key) => Injected(n, k + 1, Noop, signal, key), _ => "");
    forall k: nat, t: int ensures Comes(env, k, t) {
      var m: nat := if t < k then k else t;
      assert m >= k && env.times(m) >= t;
    }
  }
}
