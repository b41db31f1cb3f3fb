/** Lease fencing: who may finalize a claim, and for how long. */
module Leases {
  import opened Wrappers
  import opened Signals
  import opened Domain
  import opened Outbox
  import opened Invariants
  import opened Preservation
  import opened Replay
  import opened Evidence
  import opened Machine
  import opened MachineInvariants
  import opened MachineSafety
  import opened Guarantees
  import opened Runs
  import opened MessageSteps

  /** In every reachable state a message has a lock exactly while it is being processed,
      exactly while it has a lease; and of two claims in flight on it the older had
      expired before the newer was made. */
  lemma FencedLeases(h: Hashes, max: nat, w: World, id: string)
    requires max >= 1 && Reachable(h, max, w) && id in w.db.messages
    ensures w.db.messages[id].lockedBy.Some? <==> w.db.messages[id].status == Processing
    ensures w.db.messages[id].leaseExpiresAt.Some? <==> w.db.messages[id].status == Processing
    ensures forall t, u | t in w.flights && u in w.flights && t != u && w.flights[t].claimed.id == id
            && w.flights[u].claimed.id == id ::
              || w.flights[t].leaseUntil <= w.flights[u].claimedAt
              || w.flights[u].leaseUntil <= w.flights[t].claimedAt
    ensures forall t :: t in w.flights && w.flights[t].claimed.id == id && w.clock < w.flights[t].leaseUntil ==>
              w.db.messages[id].lockedBy == Some(t)
  {
    hide Reachable, Inv, LogInv, EvidenceInv, TablesOk, LocksOk, FailuresOk, Reached;
    ReachableParts(h, max, w);
    TablesHave(max, w, w.clock);
    Behind(max, w.db, id);
  }

  /** A token that was drawn and locks nothing. */
  predicate Spent(token: string, w: World) {
    token in w.tokens && forall x :: x in w.db.messages ==> w.db.messages[x].lockedBy != Some(token)
  }

  lemma SpentNext(h: Hashes, max: nat, w: World, step: Step, stamp: Stamp, token: string)
    requires WorldInv(h, max, w) && Enabled(max, w, step, stamp) && Spent(token, w)
    ensures Spent(token, Next(h, max, w, step, stamp))
  {
    hide WorldInv, Next, Finalizes, FreshEvent, Decode, Admissible, ErrorText, RetryDelay, Claimable;
    RowsNext(h, max, w, step, stamp);
    ClockNext(h, max, w, step, stamp);
    assert step.ClaimStep? ==> step.token != token;
  }

  /** A spent token never locks anything again. */
  lemma {:induction false} SpentForever(h: Hashes, max: nat, w: World, run: seq<Event>, token: string)
    requires WorldInv(h, max, w) && max >= 1 && Legal(h, max, w, run) && Spent(token, w)
    ensures Spent(token, EndOf(h, max, w, run))
    decreases |run|
  {
    hide WorldInv, Next, Enabled, Spent;
    if run != [] {
      NextKeeps(h, max, w, run[0].step, run[0].stamp);
      SpentNext(h, max, w, run[0].step, run[0].stamp, token);
      SpentForever(h, max, Next(h, max, w, run[0].step, run[0].stamp), run[1..], token);
    }
  }

  lemma FinalizedIsSpent(h: Hashes, max: nat, w: World, token: string, stamp: Stamp)
    requires WorldInv(h, max, w) && Enabled(max, w, FinalizeStep(token), stamp)
    ensures Spent(token, Next(h, max, w, FinalizeStep(token), stamp))
  {
    hide WorldInv, TablesOk, DbInv, FlightsOk, Faithful, Inv, Fenced, FailuresOk, Reached, Claims, Claimable, Finalized,
      EvidenceInv, LogInv, FreshEvent, ErrorText, RetryDelay;
    Parts(h, max, w);
    TablesHave(max, w, w.clock);
    FlightFaithful(max, w, token);
    FlightToken(max, w, token);
    DbHasInv(h, max, w.db);
    var f := w.flights[token];
    if HoldsLease(w.db, f.claimed) {
      FinalizedMessages(h, max, w.db, f, stamp);
      ReleasedIsSpent(w.db.messages, f, w.flights, w.tokens, stamp.at);
    } else {
      hide LocksOk;
      FinalizeDb(h, max, w.db, f, stamp);
      UnheldIsSpent(w, token);
    }
  }

  lemma ReleasedIsSpent(messages: Messages, f: Flight, flights: Flights, tokens: set<string>, now: int)
    requires LocksOk(messages, flights, tokens) && f.response.Some? && f.claimed.id in messages
    requires messages[f.claimed.id].lockedBy == Some(f.claimed.token)
    ensures var after := messages[f.claimed.id := FinalRow(messages[f.claimed.id], f, now)];
            forall x :: x in after ==> after[x].lockedBy != Some(f.claimed.token)
  {
    hide ErrorText, RetryDelay;
  }

  lemma UnheldIsSpent(w: World, token: string)
    requires LocksOk(w.db.messages, w.flights, w.tokens)
    requires token in w.flights && w.flights[token].claimed.token == token
    requires !HoldsLease(w.db, w.flights[token].claimed)
    ensures forall x :: x in w.db.messages ==> w.db.messages[x].lockedBy != Some(token)
  {
  }

  lemma FlightToken(max: nat, w: World, token: string)
    requires FlightsOk(max, w.flights, w.db.messages, w.tokens, w.claims, w.clock) && token in w.flights
    ensures token in w.tokens
  {
  }

  lemma SupersededIsSpent(h: Hashes, max: nat, w: World, token: string)
    requires WorldInv(h, max, w) && token in w.flights && !HoldsLease(w.db, w.flights[token].claimed)
    ensures Spent(token, w)
  {
    hide WorldInv, TablesOk, DbInv, FlightsOk, Fenced, FailuresOk, Reached;
    Parts(h, max, w);
    TablesHave(max, w, w.clock);
    FlightFaithful(max, w, token);
    FlightToken(max, w, token);
  }

  lemma SpentMeansStale(h: Hashes, w: World, cfg: WorkerConfig, claimed: ClaimedMessage, reference: string,
                        error: string, stamp: Stamp)
    requires Spent(claimed.token, w)
    ensures RecordSuccess(h, w.db, cfg, claimed, reference, stamp) == Done(w.db, false)
    ensures RecordFailure(h, w.db, cfg, claimed, error, stamp) == Done(w.db, false)
  {
    hide LogEvent, ErrorText, RetryDelay;
  }

  /** A claim takes effect at most once: after it was finalized, or once the message
      went to someone else, no finalization with its token changes anything at any later
      time. */
  lemma ClaimTakesEffectOnce(h: Hashes, max: nat, w: World, token: string, stamp: Stamp, run: seq<Event>,
                             cfg: WorkerConfig, claimed: ClaimedMessage, reference: string, error: string, later: Stamp)
    requires max >= 1 && Reachable(h, max, w) && Enabled(max, w, FinalizeStep(token), stamp)
    requires Legal(h, max, Next(h, max, w, FinalizeStep(token), stamp), run) && claimed.token == token
    ensures var db := EndOf(h, max, Next(h, max, w, FinalizeStep(token), stamp), run).db;
            && RecordSuccess(h, db, cfg, claimed, reference, later) == Done(db, false)
            && RecordFailure(h, db, cfg, claimed, error, later) == Done(db, false)
  {
    hide Reachable, WorldInv, Enabled, Next, Spent, RecordSuccess, RecordFailure;
    var next := Next(h, max, w, FinalizeStep(token), stamp);
    ReachableInv(h, max, w);
    NextKeeps(h, max, w, FinalizeStep(token), stamp);
    FinalizedIsSpent(h, max, w, token, stamp);
    SpentForever(h, max, next, run, token);
    SpentMeansStale(h, EndOf(h, max, next, run), cfg, claimed, reference, error, later);
  }

  lemma SupersededNeverTakesEffect(h: Hashes, max: nat, w: World, token: string, run: seq<Event>,
                                   cfg: WorkerConfig, claimed: ClaimedMessage, reference: string, error: string,
                                       later: Stamp)
    requires max >= 1 && Reachable(h, max, w) && token in w.flights && !HoldsLease(w.db, w.flights[token].claimed)
    requires Legal(h, max, w, run) && claimed.token == token
    ensures var db := EndOf(h, max, w, run).db;
            && RecordSuccess(h, db, cfg, claimed, reference, later) == Done(db, false)
            && RecordFailure(h, db, cfg, claimed, error, later) == Done(db, false)
  {
    hide Reachable, WorldInv, Enabled, Next, Spent, RecordSuccess, RecordFailure;
    ReachableInv(h, max, w);
    SupersededIsSpent(h, max, w, token);
    SpentForever(h, max, w, run, token);
    SpentMeansStale(h, EndOf(h, max, w, run), cfg, claimed, reference, error, later);
  }

  // ---------------------------------------------------------------- finality

  predicate PublishedRow(w: World, id: string, m: Message) {
    id in w.db.messages && w.db.messages[id] == m && m.status == Published
  }

  lemma PublishedNext(h: Hashes, max: nat, w: World, step: Step, stamp: Stamp, id: string, m: Message)
    requires WorldInv(h, max, w) && max >= 1 && Enabled(max, w, step, stamp) && PublishedRow(w, id, m)
    ensures PublishedRow(Next(h, max, w, step, stamp), id, m)
  {
    hide WorldInv, Next, Enabled, TablesOk, DbInv, Inv, LogInv, EvidenceInv, Claims, ErrorText, RetryDelay;
    RowsNext(h, max, w, step, stamp);
    Parts(h, max, w);
    DbHasInv(h, max, w.db);
    Behind(max, w.db, id);
  }

  lemma {:induction false} PublishedRun(h: Hashes, max: nat, w: World, run: seq<Event>, id: string, m: Message)
    requires WorldInv(h, max, w) && max >= 1 && Legal(h, max, w, run) && PublishedRow(w, id, m)
    ensures PublishedRow(EndOf(h, max, w, run), id, m)
    decreases |run|
  {
    hide WorldInv, Next, Enabled, PublishedRow;
    if run != [] {
      NextKeeps(h, max, w, run[0].step, run[0].stamp);
      PublishedNext(h, max, w, run[0].step, run[0].stamp, id, m);
      PublishedRun(h, max, Next(h, max, w, run[0].step, run[0].stamp), run[1..], id, m);
    }
  }

  /** Publication is final: no late finalization, crash, recovery or command ever moves
      the message again or takes the dispatch back behind `issued`. */
  lemma PublicationIsFinal(h: Hashes, max: nat, w: World, run: seq<Event>, id: string)
    requires max >= 1 && Reachable(h, max, w) && Legal(h, max, w, run)
    requires id in w.db.messages && w.db.messages[id].status == Published
    ensures var after := EndOf(h, max, w, run).db;
            && id in after.messages && after.messages[id] == w.db.messages[id]
            && after.messages[id].aggregateId in after.dispatches
            && after.dispatches[after.messages[id].aggregateId].status in {Issued, DispatchCompleted}
  {
    hide Reachable, WorldInv, Legal, EndOf, Inv, LogInv, EvidenceInv, TablesOk;
    ReachableInv(h, max, w);
    PublishedRun(h, max, w, run, id, w.db.messages[id]);
    ReachableOn(h, max, w, run);
    ReachableParts(h, max, EndOf(h, max, w, run));
    Behind(max, EndOf(h, max, w, run).db, id);
  }
}
