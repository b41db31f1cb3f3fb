/** What a batch does with the outbox when the worker has it to itself. */
module BatchLaws {
  import opened Wrappers
  import opened Ordering
  import opened Domain
  import opened Outbox
  import opened Coordination
  import opened Invariants
  import opened Preservation
  import opened Machine
  import opened MachineSafety
  import opened Batch
  import opened ClaimOrder

  /** How a round ends for the message it claimed. */
  function RoundFlight(cfg: WorkerConfig, env: Env, p: Progress): Flight
    requires Claimable(p.db, env.times(p.cursor.ticks)) != {}
  {
    var now := env.times(p.cursor.ticks);
    var claimed := Claim(p.db, cfg, cfg.workerId + ":" + env.tokens(p.cursor.claims), now).claimed.value;
    Flight(cfg, claimed, now, now + cfg.lease * SECOND, p.cursor.claims, Some(Attempted(env, p.cursor.calls, claimed)))
  }

  /** The row that a round leaves behind. */
  function RoundRow(cfg: WorkerConfig, env: Env, p: Progress): Message
    requires Claimable(p.db, env.times(p.cursor.ticks)) != {}
  {
    var now := env.times(p.cursor.ticks);
    FinalRow(Leased(p.db.messages[First(Claimable(p.db, now)).id], cfg.lease,
                    cfg.workerId + ":" + env.tokens(p.cursor.claims), now),
             RoundFlight(cfg, env, p), env.times(p.cursor.ticks + 1))
  }

  /** How the counters move. */
  function Counted(r: OutboxRunResult, s: OutboxStatus): OutboxRunResult {
    OutboxRunResult(r.attempted + 1, r.published + (if s == Published then 1 else 0),
                    r.retried + (if s == Pending then 1 else 0), r.dead + (if s == Dead then 1 else 0))
  }

  /** A round with work to do claims the earliest ready message, holds its lease to the end,
      never raises, and rewrites that row only. */
  lemma RoundDoes(h: Hashes, max: nat, cfg: WorkerConfig, env: Env, p: Progress)
    requires Inv(max, p.db) && cfg.maxAttempts == max && Claimable(p.db, env.times(p.cursor.ticks)) != {}
    ensures var (next, end) := Round(h, cfg, env, p);
            var id := First(Claimable(p.db, env.times(p.cursor.ticks))).id;
            && end == Handled && Inv(max, next.db) && Extends(p.db, next.db)
            && next.claimed == p.claimed + [id] && Earliest(p.db.messages, id, env.times(p.cursor.ticks))
            && next.db.messages == p.db.messages[id := RoundRow(cfg, env, p)]
            && next.result == Counted(p.result, RoundRow(cfg, env, p).status)
            && next.cursor == Cursor(p.cursor.ticks + 2, p.cursor.claims + 1,
                                     CallsAfter(p.cursor.calls, RoundFlight(cfg, env, p).claimed))
  {
    hide Inv, Extends, Attempted, Conclude, Claimable, Finalized, FinalRow, CallsAfter, Earliest;
    FirstIsEarliest(p.db, env.times(p.cursor.ticks));
    var now := env.times(p.cursor.ticks);
    var token := cfg.workerId + ":" + env.tokens(p.cursor.claims);
    var r := Claim(p.db, cfg, token, now);
    var f := RoundFlight(cfg, env, p);
    var stamp := Stamp(env.eventIds(|r.db.log|), env.times(p.cursor.ticks + 1));
    ClaimKeeps(max, p.db, cfg, token, now);
    FinalizedMessages(h, max, r.db, f, stamp);
    var mid := Progress(r.db, Cursor(p.cursor.ticks + 2, p.cursor.claims + 1, CallsAfter(p.cursor.calls, f.claimed)),
                        p.result.(attempted := p.result.attempted + 1), p.claimed + [f.claimed.id]);
    Concluded(h, max, cfg, mid, f, stamp);
    ExtendsTransitive(p.db, r.db, Finalized(h, r.db, f, stamp));
  }

  lemma Concluded(h: Hashes, max: nat, cfg: WorkerConfig, p: Progress, f: Flight, stamp: Stamp)
    requires Inv(max, p.db) && Faithful(p.db, f.claimed) && HoldsLease(p.db, f.claimed) && f.cfg == cfg
    requires cfg.maxAttempts == max
    requires f.response.Some?
    ensures var (next, end) := Conclude(h, cfg, p, f.claimed, f.response.value, stamp);
            var status := FinalRow(p.db.messages[f.claimed.id], f, stamp.at).status;
            && end == Handled && next.db == Finalized(h, p.db, f, stamp) && next.cursor == p.cursor
            && next.claimed == p.claimed
            && next.result == OutboxRunResult(p.result.attempted,
                                              p.result.published + (if status == Published then 1 else 0),
                                                  p.result.retried + (if status == Pending then 1 else 0),
                                              p.result.dead + (if status == Dead then 1 else 0))
            && Inv(max, next.db) && Extends(p.db, next.db)
  {
    hide Inv, Extends;
    Behind(max, p.db, f.claimed.id);
    match f.response.value
    case Ack(reference) =>
      SuccessKeeps(h, max, p.db, cfg, f.claimed, reference, stamp);
      SuccessTells(h, p.db, cfg, f.claimed, reference, stamp);
      hide RecordSuccess;
    case Raise(error) =>
      FailureKeeps(h, max, p.db, cfg, f.claimed, error, stamp);
      FailureTells(h, p.db, cfg, f.claimed, error, stamp);
      hide RecordFailure, ErrorText, RetryDelay;
  }

  lemma SuccessTells(h: Hashes, db: Db, cfg: WorkerConfig, c: ClaimedMessage, reference: string, stamp: Stamp)
    ensures var r := RecordSuccess(h, db, cfg, c, reference, stamp); r.Done? ==> r.value == HoldsLease(db, c)
  {
    hide LogEvent;
  }

  lemma FailureTells(h: Hashes, db: Db, cfg: WorkerConfig, c: ClaimedMessage, error: string, stamp: Stamp)
    ensures RecordFailure(h, db, cfg, c, error, stamp).value
            <==> HoldsLease(db, c) && AfterFailure(db.messages[c.id], cfg, error, stamp.at).status == Dead
  {
    hide LogEvent, ErrorText, RetryDelay;
  }

  /** How the counters move when a claim is concluded, whether or not its lease is still held:
      a success counts only with the lease, a failure counts as dead if it was the last one
      with the lease, and as retried otherwise; without the lease nothing is written. */
  lemma ConcludedCounts(h: Hashes, cfg: WorkerConfig, p: Progress, claimed: ClaimedMessage, response: Response,
                        stamp: Stamp)
    requires claimed.id in p.db.messages && claimed.aggregateId in p.db.dispatches
    requires p.db.dispatches[claimed.aggregateId].reservationId in p.db.reservations
    ensures var (q, end) := Conclude(h, cfg, p, claimed, response, stamp);
            var held := p.db.messages[claimed.id].lockedBy == Some(claimed.token);
            var last := held && p.db.messages[claimed.id].attempts >= cfg.maxAttempts;
            && end == Handled && q.cursor == p.cursor && q.claimed == p.claimed
            && (!held ==> q.db == p.db)
            && q.result == OutboxRunResult(p.result.attempted,
                                           p.result.published + (if response.Ack? && held then 1 else 0),
                                           p.result.retried + (if response.Raise? && !last then 1 else 0),
                                           p.result.dead + (if response.Raise? && last then 1 else 0))
  {
    hide LogEvent, ErrorText, RetryDelay, SystemActor, Rejection;
  }

  // ---------------------------------------------------------------- exactness

  lemma RetryIsLater(cfg: WorkerConfig, attempts: nat)
    requires cfg.Accepted()
    ensures RetryDelay(cfg, attempts) >= 1
  {
    var p := Pow2(if attempts >= 1 then attempts - 1 else 0);
    assert cfg.baseRetry * p >= 1 * p;
  }

  /** With the clock standing still, a round takes the claimed message out of those
      claimable and leaves the rest. */
  lemma RoundTakesFirst(h: Hashes, max: nat, cfg: WorkerConfig, env: Env, p: Progress, now: int)
    requires Inv(max, p.db) && cfg.maxAttempts == max && cfg.Accepted() && Claimable(p.db, now) != {}
    requires env.times(p.cursor.ticks) == now == env.times(p.cursor.ticks + 1)
    ensures var next := Round(h, cfg, env, p).0;
            Claimable(next.db, now) == Claimable(p.db, now) - {First(Claimable(p.db, now))}
  {
    hide Inv, Round, RoundRow, Claimable, IsClaimable;
    RoundDoes(h, max, cfg, env, p);
    RoundRowLater(cfg, env, p);
    ClaimableWithout(p.db, Round(h, cfg, env, p).0.db, First(Claimable(p.db, now)), RoundRow(cfg, env, p), now);
  }

  lemma ClaimableWithout(db: Db, db': Db, r: Rank, m: Message, now: int)
    requires r in Claimable(db, now) && db'.messages == db.messages[r.id := m] && !IsClaimable(m, now)
    ensures Claimable(db', now) == Claimable(db, now) - {r}
  {
    hide IsClaimable, Claimable;
    forall x | x in Claimable(db', now) ensures x in Claimable(db, now) - {r} {
      assert x.id != r.id && db'.messages[x.id] == db.messages[x.id];
    }
    forall x | x in Claimable(db, now) - {r} ensures x in Claimable(db', now) {
      assert x.id != r.id;
      assert db'.messages[x.id] == db.messages[x.id];
      assert x == RankOf(x.id, db'.messages[x.id]);
    }
  }

  lemma RoundRowLater(cfg: WorkerConfig, env: Env, p: Progress)
    requires cfg.Accepted() && Claimable(p.db, env.times(p.cursor.ticks)) != {}
    ensures !IsClaimable(RoundRow(cfg, env, p), env.times(p.cursor.ticks + 1))
  {
    hide ErrorText, RetryDelay, Attempted, Claimable;
    var m := p.db.messages[First(Claimable(p.db, env.times(p.cursor.ticks))).id];
    RetryIsLater(cfg, m.attempts + 1);
  }

  function Min(a: nat, b: nat): nat { if a < b then a else b }

  /** The ids of the first k rows of the claim order. */
  function FirstIds(due: set<Rank>, k: nat): (ids: seq<string>)
    requires k <= |due|
    ensures |ids| == k
  {
    Ids(Listing(due)[..k])
  }

  lemma FirstIdsStep(due: set<Rank>, k: nat)
    requires 0 < k <= |due|
    ensures FirstIds(due, k) == [First(due).id] + FirstIds(due - {First(due)}, k - 1)
    ensures Listing(due)[k..] == Listing(due - {First(due)})[k - 1..]
  {
    var first, rest := First(due), Listing(due - {First(due)});
    assert Listing(due) == [first] + rest;
    hide Listing, First, Ids;
    ConsPrefix(first, rest, k);
  }

  lemma ConsPrefix(first: Rank, rest: seq<Rank>, k: nat)
    requires 0 < k <= |rest| + 1
    ensures Ids(([first] + rest)[..k]) == [first.id] + Ids(rest[..k - 1])
    ensures ([first] + rest)[k..] == rest[k - 1..]
  {
    assert ([first] + rest)[..k] == [first] + rest[..k - 1];
    assert Ids([first] + rest[..k - 1]) == [first.id] + Ids(rest[..k - 1]);
  }

  /** A batch goes on after a round with work to do. */
  lemma RunOnceGoesOn(h: Hashes, max: nat, cfg: WorkerConfig, env: Env, p: Progress, limit: nat)
    requires Inv(max, p.db) && cfg.maxAttempts == max && Claimable(p.db, env.times(p.cursor.ticks)) != {} && limit > 0
    ensures var next := Round(h, cfg, env, p).0;
            && Inv(max, next.db)
            && next.claimed == p.claimed + [First(Claimable(p.db, env.times(p.cursor.ticks))).id]
            && next.db.messages
               == p.db.messages[First(Claimable(p.db, env.times(p.cursor.ticks))).id := RoundRow(cfg, env, p)]
            && RunOnce(h, cfg, env, p, limit) == RunOnce(h, cfg, env, next, limit - 1)
  {
    hide Inv, Round, RoundRow, Claimable, Counted, Extends;
    RoundDoes(h, max, cfg, env, p);
  }

  /** A batch stops at its limit, or when nothing is due. */
  lemma RunOnceStops(h: Hashes, cfg: WorkerConfig, env: Env, p: Progress, limit: nat)
    requires limit == 0 || Claimable(p.db, env.times(p.cursor.ticks)) == {}
    ensures var (q, end) := RunOnce(h, cfg, env, p, limit);
            q == p.(cursor := q.cursor) && !end.Raised?
  {
    hide Round, Claimable;
    if limit > 0 { RoundIdles(h, cfg, env, p); }
  }

  /** What a batch with the clock at rest leaves and reports. */
  predicate ExactBatch(p: Progress, q: Progress, limit: nat, now: int) {
    var due := Claimable(p.db, now);
    var k := Min(limit, |due|);
    && q.claimed == p.claimed + FirstIds(due, k)
    && Listing(Claimable(q.db, now)) == Listing(due)[k..]
    && q.result.attempted == p.result.attempted + k
    && q.result.published + q.result.retried + q.result.dead == p.result.published + p.result.retried + p.result.dead
        + k
  }

  lemma {:induction false} RunOnceExact(h: Hashes, max: nat, cfg: WorkerConfig, env: Env, p: Progress, limit: nat,
                                        now: int)
    requires Inv(max, p.db) && cfg.maxAttempts == max && cfg.Accepted() && forall i: nat :: env.times(i) == now
    ensures var (q, end) := RunOnce(h, cfg, env, p, limit);
            !end.Raised? && Inv(max, q.db) && ExactBatch(p, q, limit, now)
    decreases limit
  {
    hide Inv, Round, RoundRow, FirstIds, Claimable, ExactBatch, Counted;
    var due := Claimable(p.db, now);
    if limit == 0 {
      ExactNothing(p, limit, now);
    } else if due == {} {
      RoundIdles(h, cfg, env, p);
      ExactNothing(p, limit, now);
    } else {
      var next := Round(h, cfg, env, p).0;
      RoundDoes(h, max, cfg, env, p);
      RoundTakesFirst(h, max, cfg, env, p, now);
      RowStatuses(cfg, env, p);
      RunOnceExact(h, max, cfg, env, next, limit - 1, now);
      ExactStep(p, next, RunOnce(h, cfg, env, next, limit - 1).0, limit, now, RoundRow(cfg, env, p).status);
    }
  }

  lemma ExactNothing(p: Progress, limit: nat, now: int)
    requires limit == 0 || Claimable(p.db, now) == {}
    ensures ExactBatch(p, p, limit, now)
    ensures forall cursor :: ExactBatch(p, p.(cursor := cursor), limit, now)
  {
    hide Claimable;
    FirstIdsNone(Claimable(p.db, now));
  }

  lemma ExactStep(p: Progress, next: Progress, q: Progress, limit: nat, now: int, status: OutboxStatus)
    requires limit > 0 && Claimable(p.db, now) != {} && status in {Pending, Published, Dead}
    requires Claimable(next.db, now) == Claimable(p.db, now) - {First(Claimable(p.db, now))}
    requires next.claimed == p.claimed + [First(Claimable(p.db, now)).id] && next.result == Counted(p.result, status)
    requires ExactBatch(next, q, limit - 1, now)
    ensures ExactBatch(p, q, limit, now)
  {
    hide Claimable, FirstIds, Listing, First;
    var due := Claimable(p.db, now);
    FirstIdsStep(due, Min(limit, |due|));
  }

  lemma RowStatuses(cfg: WorkerConfig, env: Env, p: Progress)
    requires Claimable(p.db, env.times(p.cursor.ticks)) != {}
    ensures RoundRow(cfg, env, p).status in {Pending, Published, Dead}
  {
    hide ErrorText, RetryDelay, Attempted, Claimable;
  }

  lemma RoundIdles(h: Hashes, cfg: WorkerConfig, env: Env, p: Progress)
    requires Claimable(p.db, env.times(p.cursor.ticks)) == {}
    ensures Round(h, cfg, env, p) == (p.(cursor := p.cursor.(ticks := p.cursor.ticks + 1)), Idle)
  {
    hide Conclude, Attempted;
  }

  lemma FirstIdsNone(due: set<Rank>)
    ensures FirstIds(due, 0) == [] && Listing(due)[0..] == Listing(due)
  {
  }

  /** Rows of the claim order have distinct ids. */
  lemma FirstIdsDistinct(db: Db, now: int, k: nat)
    requires k <= |Claimable(db, now)|
    ensures AllDistinct(FirstIds(Claimable(db, now), k))
  {
    var due := Claimable(db, now);
    ListingLaw(due);
    var l := Listing(due);
    forall i, j | 0 <= i < j < k ensures l[i].id != l[j].id {
      assert l[i] in l && l[j] in l;
      if l[i].id == l[j].id { BeforeIrreflexive(l[i]); }
    }
    hide Claimable, Listing;
  }

  lemma {:induction false} RunOnceTouches(h: Hashes, max: nat, cfg: WorkerConfig, env: Env, p: Progress, limit: nat)
    requires Inv(max, p.db) && cfg.maxAttempts == max
    ensures var (q, end) := RunOnce(h, cfg, env, p, limit);
            p.claimed <= q.claimed && Untouched(p.db.messages, q.db.messages, q.claimed[|p.claimed|..])
    decreases limit
  {
    hide Inv, Round, RoundRow, Claimable, Untouched, RunOnce;
    if limit == 0 || Claimable(p.db, env.times(p.cursor.ticks)) == {} {
      RunOnceStops(h, cfg, env, p, limit);
      UntouchedSelf(p.db.messages);
    } else {
      var next := Round(h, cfg, env, p).0;
      var id := First(Claimable(p.db, env.times(p.cursor.ticks))).id;
      RunOnceGoesOn(h, max, cfg, env, p, limit);
      UntouchedBut(p.db.messages, id, RoundRow(cfg, env, p));
      RunOnceTouches(h, max, cfg, env, next, limit - 1);
      TouchesStep(p, next, RunOnce(h, cfg, env, next, limit - 1).0, id);
    }
  }

  lemma UntouchedSelf(messages: Messages)
    ensures forall claimed :: Untouched(messages, messages, claimed)
  {
  }

  lemma UntouchedBut(messages: Messages, id: string, m: Message)
    requires id in messages
    ensures Untouched(messages, messages[id := m], [id])
  {
  }

  lemma TouchesStep(p: Progress, next: Progress, q: Progress, id: string)
    requires next.claimed == p.claimed + [id] && next.claimed <= q.claimed
    requires Untouched(p.db.messages, next.db.messages, [id])
    requires Untouched(next.db.messages, q.db.messages, q.claimed[|next.claimed|..])
    ensures p.claimed <= q.claimed && Untouched(p.db.messages, q.db.messages, q.claimed[|p.claimed|..])
  {
    assert q.claimed[|p.claimed|] == next.claimed[|p.claimed|] == id;
    assert q.claimed[|p.claimed|..] == [id] + q.claimed[|next.claimed|..];
  }

  /** All rows are still there, and those not claimed are as they were. */
  predicate Untouched(messages: Messages, messages': Messages, claimed: seq<string>) {
    && messages'.Keys == messages.Keys
    && forall x :: x in messages && x !in claimed ==> messages'[x] == messages[x]
  }

  predicate AllDistinct(ids: seq<string>) { forall i, j :: 0 <= i < j < |ids| ==> ids[i] != ids[j] }

  /** A batch claims exactly the first min(limit, n) of the n claimable messages in claim
      order, each once, touches no other message, accounts for every claim, never raises,
      and leaves the rest of the claim order, so nothing when limit >= n. */
  predicate BatchReport(db: Db, limit: nat, now: int, q: Progress, end: RoundEnd) {
    var due := Claimable(db, now);
    var k := Min(limit, |due|);
    && !end.Raised?
    && q.claimed == FirstIds(due, k) && AllDistinct(q.claimed)
    && q.result.attempted == k == q.result.published + q.result.retried + q.result.dead
    && Listing(Claimable(q.db, now)) == Listing(due)[k..]
    && (limit >= |due| ==> Claimable(q.db, now) == {})
    && Untouched(db.messages, q.db.messages, q.claimed)
  }

  /** A batch claims ready messages in the order of their columns, and leaves a ready one
      only when it has claimed as many earlier ones as its limit allows. */
  predicate ClaimedInOrder(messages: Messages, now: int, limit: nat, claimed: seq<string>) {
    && (forall i :: 0 <= i < |claimed| ==> claimed[i] in messages && Ready(messages[claimed[i]], now))
    && (forall i, j :: 0 <= i < j < |claimed| ==>
          Earlier(claimed[i], messages[claimed[i]], claimed[j], messages[claimed[j]]))
    && (forall x :: x in messages && x !in claimed && Ready(messages[x], now) ==>
          |claimed| == limit && forall i :: 0 <= i < |claimed| ==>
                                  Earlier(claimed[i], messages[claimed[i]], x, messages[x]))
  }

  lemma FirstIdsAt(due: set<Rank>, k: nat)
    requires k <= |due|
    ensures forall i :: 0 <= i < k ==> FirstIds(due, k)[i] == Listing(due)[i].id && Listing(due)[i] in due
  {
    ListingLaw(due);
    hide Listing;
    forall i | 0 <= i < k ensures Listing(due)[i] in due { assert Listing(due)[i] in Listing(due); }
  }

  /** Ranks in claim order are rows in the order of their columns. */
  lemma EarlierRanks(db: Db, now: int, a: Rank, b: Rank)
    requires a in Claimable(db, now) && b in Claimable(db, now) && Before(a, b)
    ensures a.id in db.messages && b.id in db.messages && Ready(db.messages[a.id], now)
    ensures Earlier(a.id, db.messages[a.id], b.id, db.messages[b.id])
  {
  }

  lemma RankReady(db: Db, now: int, a: Rank)
    requires a in Claimable(db, now)
    ensures a.id in db.messages && Ready(db.messages[a.id], now)
  {
  }

  lemma FirstIdsInOrder(db: Db, now: int, limit: nat)
    ensures var due := Claimable(db, now);
            ClaimedInOrder(db.messages, now, limit, FirstIds(due, Min(limit, |due|)))
  {
    hide Listing, FirstIds, Ready, Earlier, Claimable, Before;
    var due := Claimable(db, now);
    var k := Min(limit, |due|);
    var l, claimed := Listing(due), FirstIds(due, k);
    FirstIdsAt(due, k);
    ListingLaw(due);
    forall i | 0 <= i < k ensures claimed[i] in db.messages && Ready(db.messages[claimed[i]], now) {
      RankReady(db, now, l[i]);
    }
    forall i, j | 0 <= i < j < k
      ensures Earlier(claimed[i], db.messages[claimed[i]], claimed[j], db.messages[claimed[j]])
    {
      EarlierRanks(db, now, l[i], l[j]);
    }
    forall x | x in db.messages && x !in claimed && Ready(db.messages[x], now)
      ensures k == limit && forall i :: 0 <= i < k ==> Earlier(claimed[i], db.messages[claimed[i]], x, db.messages[x])
    {
      LaterRank(db, now, x, l, claimed);
    }
  }

  lemma LaterRank(db: Db, now: int, x: string, l: seq<Rank>, claimed: seq<string>)
    requires Ascending(l) && (forall r :: r in l <==> r in Claimable(db, now))
    requires |claimed| <= |l| && forall i :: 0 <= i < |claimed| ==> claimed[i] == l[i].id
    requires x in db.messages && x !in claimed && Ready(db.messages[x], now)
    ensures |claimed| < |l|
    ensures forall i :: 0 <= i < |claimed| ==> Earlier(claimed[i], db.messages[claimed[i]], x, db.messages[x])
  {
    var rank := RankOf(x, db.messages[x]);
    assert rank in Claimable(db, now);
    var n :| 0 <= n < |l| && l[n] == rank;
    assert forall m :: 0 <= m < |claimed| ==> claimed[m] in claimed;
    hide Ready, Earlier, Claimable, Before;
    forall i | 0 <= i < |claimed| ensures Earlier(claimed[i], db.messages[claimed[i]], x, db.messages[x]) {
      EarlierRanks(db, now, l[i], l[n]);
    }
  }

  /** With the clock at rest and no other actor, `run_once(limit)` does just what the
      report says, and claims in the order of the columns. */
  lemma BatchExact(h: Hashes, max: nat, cfg: WorkerConfig, env: Env, db: Db, cursor: Cursor, limit: nat, now: int)
    requires Inv(max, db) && cfg.maxAttempts == max && cfg.Accepted() && forall i: nat :: env.times(i) == now
    ensures BatchReport(db, limit, now, RunOnce(h, cfg, env, Begin(db, cursor), limit).0,
                        RunOnce(h, cfg, env, Begin(db, cursor), limit).1)
    ensures ClaimedInOrder(db.messages, now, limit, RunOnce(h, cfg, env, Begin(db, cursor), limit).0.claimed)
    ensures Inv(max, RunOnce(h, cfg, env, Begin(db, cursor), limit).0.db)
  {
    hide Inv, RunOnce, ExactBatch, FirstIds, Claimable, Listing, ClaimedInOrder, Untouched;
    FirstIdsInOrder(db, now, limit);
    var p := Begin(db, cursor);
    RunOnceExact(h, max, cfg, env, p, limit, now);
    RunOnceTouches(h, max, cfg, env, p, limit);
    ReportedSo(p, RunOnce(h, cfg, env, p, limit).0, RunOnce(h, cfg, env, p, limit).1, limit, now);
  }

  lemma ReportedSo(p: Progress, q: Progress, end: RoundEnd, limit: nat, now: int)
    requires p == Begin(p.db, p.cursor) && ExactBatch(p, q, limit, now) && !end.Raised?
    requires p.claimed <= q.claimed && Untouched(p.db.messages, q.db.messages, q.claimed[|p.claimed|..])
    ensures BatchReport(p.db, limit, now, q, end)
  {
    hide FirstIds, Claimable, Listing, Untouched;
    var due := Claimable(p.db, now);
    FirstIdsDistinct(p.db, now, Min(limit, |due|));
    assert [] + FirstIds(due, Min(limit, |due|)) == q.claimed;
    assert q.claimed[0..] == q.claimed;
  }

  // ------------------------------------------------------------- conservation

  predicate Conserved(p: Progress, q: Progress) {
    && |WithStatus(q.db, Published)| == |WithStatus(p.db, Published)| + q.result.published - p.result.published
    && |WithStatus(q.db, Dead)| == |WithStatus(p.db, Dead)| + q.result.dead - p.result.dead
    && |WithStatus(q.db, Pending)| + |WithStatus(q.db, Processing)| + (q.result.published - p.result.published)
        + (q.result.dead - p.result.dead)
       == |WithStatus(p.db, Pending)| + |WithStatus(p.db, Processing)|
    && q.result.attempted - p.result.attempted
       == (q.result.published - p.result.published) + (q.result.retried - p.result.retried)
           + (q.result.dead - p.result.dead)
  }

  lemma StatusCounts(db: Db, id: string, m: Message, s: OutboxStatus)
    requires id in db.messages
    ensures var after := db.(messages := db.messages[id := m]);
            |WithStatus(after, s)| == |WithStatus(db, s)|
                + (if m.status == s then 1 else 0) - (if db.messages[id].status == s then 1 else 0)
  {
    var after := db.(messages := db.messages[id := m]);
    CountWithout(WithStatus(db, s), id);
    CountWithout(WithStatus(after, s), id);
    OthersCounted(db, id, m, s);
    assert id in WithStatus(db, s) <==> db.messages[id].status == s;
    assert id in WithStatus(after, s) <==> m.status == s;
    hide WithStatus;
  }

  lemma OthersCounted(db: Db, id: string, m: Message, s: OutboxStatus)
    requires id in db.messages
    ensures WithStatus(db.(messages := db.messages[id := m]), s) - {id} == WithStatus(db, s) - {id}
  {
  }

  lemma CountWithout(s: set<string>, id: string)
    ensures |s| == |s - {id}| + (if id in s then 1 else 0)
  {
    if id !in s { assert s - {id} == s; }
  }

  lemma SameMessagesSameCounts(a: Db, b: Db, s: OutboxStatus)
    requires a.messages == b.messages
    ensures WithStatus(a, s) == WithStatus(b, s)
  {
  }

  lemma RoundConserves(h: Hashes, max: nat, cfg: WorkerConfig, env: Env, p: Progress)
    requires Inv(max, p.db) && cfg.maxAttempts == max && Claimable(p.db, env.times(p.cursor.ticks)) != {}
    ensures Conserved(p, Round(h, cfg, env, p).0)
  {
    hide Inv, Round, RoundRow, Conserved, Claimable, Counted;
    RoundDoes(h, max, cfg, env, p);
    RowStatuses(cfg, env, p);
    RowConserves(p, Round(h, cfg, env, p).0, First(Claimable(p.db, env.times(p.cursor.ticks))).id,
                 RoundRow(cfg, env, p));
  }

  lemma RowConserves(p: Progress, next: Progress, id: string, m: Message)
    requires id in p.db.messages && p.db.messages[id].status in {Pending, Processing}
    requires m.status in {Pending, Published, Dead}
    requires next.db.messages == p.db.messages[id := m] && next.result == Counted(p.result, m.status)
    ensures Conserved(p, next)
  {
    hide WithStatus;
    forall s ensures |WithStatus(next.db, s)| == |WithStatus(p.db, s)|
        + (if m.status == s then 1 else 0) - (if p.db.messages[id].status == s then 1 else 0) {
      StatusCounts(p.db, id, m, s);
      SameMessagesSameCounts(next.db, p.db.(messages := p.db.messages[id := m]), s);
    }
  }

  lemma IdleConserves(p: Progress)
    ensures forall cursor :: Conserved(p, p.(cursor := cursor))
  {
  }

  lemma ConservedChains(p: Progress, q: Progress, r: Progress)
    requires Conserved(p, q) && Conserved(q, r)
    ensures Conserved(p, r)
  {
    hide WithStatus;
  }

  /** Whatever the clock does, a batch with no other actor raises the published and dead
      counts by just what it reports, lowers pending plus processing by their sum, and
      accounts for every attempt. */
  lemma {:induction false} RunOnceConserves(h: Hashes, max: nat, cfg: WorkerConfig, env: Env, p: Progress, limit: nat)
    requires Inv(max, p.db) && cfg.maxAttempts == max
    ensures Conserved(p, RunOnce(h, cfg, env, p, limit).0) && Inv(max, RunOnce(h, cfg, env, p, limit).0.db)
    ensures !RunOnce(h, cfg, env, p, limit).1.Raised?
    decreases limit
  {
    hide Inv, Round, Conserved, Claimable, RoundRow, RunOnce;
    if limit == 0 || Claimable(p.db, env.times(p.cursor.ticks)) == {} {
      RunOnceStops(h, cfg, env, p, limit);
      IdleConserves(p);
    } else {
      var next := Round(h, cfg, env, p).0;
      RunOnceGoesOn(h, max, cfg, env, p, limit);
      RoundConserves(h, max, cfg, env, p);
      RunOnceConserves(h, max, cfg, env, next, limit - 1);
      ConservedChains(p, next, RunOnce(h, cfg, env, next, limit - 1).0);
    }
  }
}
