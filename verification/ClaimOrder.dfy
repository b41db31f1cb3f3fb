/** Which message a worker claims, in terms of the columns of the outbox. */
module ClaimOrder {
  import opened Wrappers
  import opened Text
  import opened Ordering
  import opened Domain
  import opened Outbox

  /** A dispatch message that is available, and pending or left by a worker whose lease ran
      out. */
  predicate Ready(m: Message, now: int) {
    && m.topic == "dispatch.publish" && m.availableAt <= now
    && (m.status == Pending
        || (m.status == Processing && m.leaseExpiresAt.Some? && m.leaseExpiresAt.value <= now))
  }

  /** Earlier availability first, then earlier creation, then the smaller id. */
  predicate Earlier(x: string, m: Message, y: string, n: Message) {
    || m.availableAt < n.availableAt
    || (m.availableAt == n.availableAt && m.createdAt < n.createdAt)
    || (m.availableAt == n.availableAt && m.createdAt == n.createdAt && Less(x, y))
  }

  /** A ready message that comes before every other ready one. */
  predicate Earliest(messages: map<string, Message>, id: string, now: int) {
    && id in messages && Ready(messages[id], now)
    && forall x :: x in messages && x != id && Ready(messages[x], now) ==> Earlier(id, messages[id], x, messages[x])
  }

  /** The first row of the claim query is the earliest ready message. */
  lemma FirstIsEarliest(db: Db, now: int)
    ensures Claimable(db, now) == {} <==> forall x :: x in db.messages ==> !Ready(db.messages[x], now)
    ensures Claimable(db, now) != {} ==> Earliest(db.messages, First(Claimable(db, now)).id, now)
  {
    forall x | x in db.messages
      ensures Ready(db.messages[x], now) <==> RankOf(x, db.messages[x]) in Claimable(db, now)
    {
    }
    if Claimable(db, now) != {} {
      var id := First(Claimable(db, now)).id;
      forall x | x in db.messages && x != id && Ready(db.messages[x], now)
        ensures Earlier(id, db.messages[id], x, db.messages[x])
      {
        assert RankOf(x, db.messages[x]) in Claimable(db, now);
      }
    }
  }

  /** A claim takes the earliest ready message, or nothing if none is ready: it gets the
      token, one more attempt and a lease of the configured seconds, and nothing else
      changes. */
  lemma ClaimTakesEarliest(db: Db, cfg: WorkerConfig, token: string, now: int)
    ensures var r := Claim(db, cfg, token, now);
            && (r.claimed.None? <==> forall x :: x in db.messages ==> !Ready(db.messages[x], now))
            && (r.claimed.None? ==> r.db == db)
            && (r.claimed.Some? ==>
                  && Earliest(db.messages, r.claimed.value.id, now)
                  && var id := r.claimed.value.id;
                     var m := db.messages[id];
                     && r.claimed.value == ClaimedMessage(id, m.aggregateId, m.key, m.payload, m.attempts + 1, token)
                     && r.db == db.(messages := db.messages[id :=
                          m.(status := Processing, attempts := m.attempts + 1, lockedBy := Some(token),
                             leaseExpiresAt := Some(now + cfg.lease * 1_000_000), updatedAt := now)]))
  {
    FirstIsEarliest(db, now);
    hide Claimable, Ready, Earlier;
  }
}
