/** What the health snapshot of the outbox means. */
module Snapshots {
  import opened Ordering
  import opened Domain
  import opened Outbox
  import opened Invariants
  import opened Replay
  import opened Evidence
  import opened Machine
  import opened MachineInvariants
  import opened MachineSafety
  import opened Guarantees

  /** Each count is the number of rows with its status, and `due` the number of pending rows
      that are available. */
  lemma CountsEach(db: Db, now: int)
    ensures var s, m := Snapshot(db, now), db.messages;
            && s.pending == |set id | id in m && m[id].status == Pending|
            && s.processing == |set id | id in m && m[id].status == Processing|
            && s.published == |set id | id in m && m[id].status == Published|
            && s.dead == |set id | id in m && m[id].status == Dead|
            && s.due == |set id | id in m && m[id].status == Pending && m[id].availableAt <= now|
  {
    var m := db.messages;
    assert WithStatus(db, Pending) == set id | id in m && m[id].status == Pending;
    assert WithStatus(db, Processing) == set id | id in m && m[id].status == Processing;
    assert WithStatus(db, Published) == set id | id in m && m[id].status == Published;
    assert WithStatus(db, Dead) == set id | id in m && m[id].status == Dead;
    assert Due(db, now) == set id | id in m && m[id].status == Pending && m[id].availableAt <= now;
  }

  /** The four counts sum to the number of messages. */
  lemma CountsSum(db: Db, now: int)
    ensures var s := Snapshot(db, now); s.pending + s.processing + s.published + s.dead == |db.messages|
  {
    StatusesCover(db);
    Partition(WithStatus(db, Pending), WithStatus(db, Processing), WithStatus(db, Published), WithStatus(db, Dead),
              db.messages.Keys);
    hide WithStatus, Due;
  }

  lemma StatusesCover(db: Db)
    ensures db.messages.Keys == WithStatus(db, Pending) + WithStatus(db, Processing) + WithStatus(db, Published)
            + WithStatus(db, Dead)
    ensures forall s, t :: s != t ==> WithStatus(db, s) !! WithStatus(db, t)
  {
  }

  lemma Partition(a: set<string>, b: set<string>, c: set<string>, d: set<string>, all: set<string>)
    requires all == a + b + c + d && a !! b && a !! c && a !! d && b !! c && b !! d && c !! d
    ensures |a| + |b| + |c| + |d| == |all|
  {
    assert |a + b| == |a| + |b|;
    assert |a + b + c| == |a + b| + |c|;
  }

  function Expired(db: Db, now: int): set<string> {
    set id | id in db.messages && LeaseExpired(db.messages[id], now)
  }

  function ClaimableIds(db: Db, now: int): set<string> {
    set id | id in db.messages && IsClaimable(db.messages[id], now)
  }

  lemma {:induction false} RanksCount(ids: set<string>, ranks: set<Rank>, rank: map<string, Rank>)
    requires forall id :: id in ids ==> id in rank && rank[id].id == id
    requires ranks == set id | id in ids :: rank[id]
    ensures |ranks| == |ids|
  {
    if ids != {} {
      var x :| x in ids;
      var rest := ranks - {rank[x]};
      forall r | r in rest ensures exists id :: id in ids - {x} && rank[id] == r {
        var id :| id in ids && rank[id] == r;
        assert id in ids - {x};
      }
      assert rest == set id | id in ids - {x} :: rank[id];
      RanksCount(ids - {x}, rest, rank);
    }
  }

  /** The claimable messages are the due ones and the processing ones whose lease has
      expired. */
  lemma ClaimableIsDueAndExpired(h: Hashes, max: nat, w: World, now: int)
    requires max >= 1 && Reachable(h, max, w) && now >= w.clock
    ensures ClaimableIds(w.db, now) == Due(w.db, now) + Expired(w.db, now) && Due(w.db, now) !! Expired(w.db, now)
    ensures |Claimable(w.db, now)| == Snapshot(w.db, now).due + |Expired(w.db, now)|
  {
    hide Reachable, Inv, LogInv, EvidenceInv, FlightsOk, Fenced, LocksOk, DeliveriesOk, Reached, FailuresOk;
    ReachableParts(h, max, w);
    assert MessagesOk(max, w.db.messages) by { InvMessages(max, w.db); }
    hide LeaseColumns, WithinBudget;
    var ids := ClaimableIds(w.db, now);
    assert ids == Due(w.db, now) + Expired(w.db, now);
    assert |ids| == |Due(w.db, now)| + |Expired(w.db, now)|;
    CountClaimable(w.db, now);
  }

  lemma CountClaimable(db: Db, now: int)
    ensures |Claimable(db, now)| == |ClaimableIds(db, now)|
  {
    hide IsClaimable, Claimable;
    var rank := map id | id in db.messages :: RankOf(id, db.messages[id]);
    var ids := ClaimableIds(db, now);
    var ranks := set id | id in ids :: rank[id];
    forall r | r in Claimable(db, now) ensures r in ranks {
      assert r.id in ids && rank[r.id] == r;
    }
    assert Claimable(db, now) == ranks;
    RanksCount(ids, Claimable(db, now), rank);
  }

  /** The reported age is the largest age of a pending message, cut off at zero. */
  lemma OldestAge(db: Db, now: int)
    ensures Snapshot(db, now).oldestPendingAge.None? <==> WithStatus(db, Pending) == {}
    ensures Snapshot(db, now).oldestPendingAge.Some? ==>
              var age := Snapshot(db, now).oldestPendingAge.value;
              && (forall id :: id in WithStatus(db, Pending) ==> now - db.messages[id].createdAt <= age)
              && (exists id ::
                    && id in WithStatus(db, Pending)
                    && (now - db.messages[id].createdAt == age || (age == 0 && now < db.messages[id].createdAt)))
  {
    var pending := set id | id in db.messages && db.messages[id].status == Pending ::
        Rank(db.messages[id].createdAt, 0, id);
    forall id | id in WithStatus(db, Pending) ensures Rank(db.messages[id].createdAt, 0, id) in pending {}
    if pending != {} {
      var first := First(pending);
      assert first.id in WithStatus(db, Pending);
      forall id | id in WithStatus(db, Pending) ensures first.major <= db.messages[id].createdAt {
        assert Rank(db.messages[id].createdAt, 0, id) in pending;
      }
    } else {
      assert WithStatus(db, Pending) == {};
    }
  }
}
