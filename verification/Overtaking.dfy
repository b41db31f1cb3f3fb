/** Bounded overtaking: how long a due message can be passed over. */
module Overtaking {
  import opened Ordering
  import opened Domain
  import opened Outbox
  import opened Invariants
  import opened Preservation
  import opened Replay
  import opened Evidence
  import opened Machine
  import opened MachineInvariants
  import opened MachineSafety
  import opened Guarantees
  import opened RetryBudget
  import opened MessageSteps

  /** Pending messages that the claim order puts before a given one. */
  function Ahead(messages: Messages, id: string): (s: set<string>)
    requires id in messages
    ensures forall y :: y in s ==> y in messages
  {
    set y | y in messages && messages[y].status == Pending && Before(RankOf(y, messages[y]), RankOf(id, messages[id]))
  }

  /** A pending message that has become available strictly before the present. */
  predicate Overdue(w: World, id: string) {
    id in w.db.messages && w.db.messages[id].status == Pending && w.db.messages[id].availableAt < w.clock
  }

  lemma StaysOverdue(h: Hashes, max: nat, w: World, step: Step, stamp: Stamp, id: string)
    requires WorldInv(h, max, w) && max >= 1 && Enabled(max, w, step, stamp) && Overdue(w, id)
    requires !Claims(w, step, stamp.at, id)
    ensures Overdue(Next(h, max, w, step, stamp), id)
    ensures Next(h, max, w, step, stamp).db.messages[id] == w.db.messages[id]
  {
    hide WorldInv, Next, Enabled, Claims, TablesOk, DbInv, Inv, LogInv, EvidenceInv, ErrorText, RetryDelay;
    RowsNext(h, max, w, step, stamp);
    ClockNext(h, max, w, step, stamp);
    Parts(h, max, w);
    DbHasInv(h, max, w.db);
    Behind(max, w.db, id);
  }

  /** Nothing new gets ahead: enqueued, retried and re-driven messages queue up behind. */
  lemma NothingGetsAhead(h: Hashes, max: nat, w: World, step: Step, stamp: Stamp, id: string)
    requires WorldInv(h, max, w) && max >= 1 && Enabled(max, w, step, stamp) && Overdue(w, id)
    requires !Claims(w, step, stamp.at, id)
    ensures var messages' := Next(h, max, w, step, stamp).db.messages;
            id in messages' && Ahead(messages', id) <= Ahead(w.db.messages, id)
  {
    hide WorldInv, Next, Enabled, Claimable, ErrorText;
    StaysOverdue(h, max, w, step, stamp, id);
    RowsNext(h, max, w, step, stamp);
    ClockNext(h, max, w, step, stamp);
    var messages' := Next(h, max, w, step, stamp).db.messages;
    forall y | y in Ahead(messages', id) ensures y in Ahead(w.db.messages, id) {
      if y in w.db.messages { StaysAhead(w, step, stamp.at, y, w.db.messages[y], messages'[y]); }
    }
  }

  lemma StaysAhead(w: World, step: Step, now: int, y: string, m: Message, m': Message)
    requires RowStep(w, step, now, y, m, m') && m'.status == Pending && m'.availableAt < now
    ensures m' == m
  {
    hide Claims, ErrorText, RetryDelay;
  }

  /** Every claim of another message takes one message out of those ahead. */
  lemma ClaimTakesOneAhead(h: Hashes, max: nat, w: World, step: Step, stamp: Stamp, id: string)
    requires WorldInv(h, max, w) && max >= 1 && Enabled(max, w, step, stamp) && Overdue(w, id)
    requires !Claims(w, step, stamp.at, id)
    requires step.ClaimStep? && OnTime(w, step, stamp.at)
    ensures var messages' := Next(h, max, w, step, stamp).db.messages;
            id in messages' && |Ahead(messages', id)| < |Ahead(w.db.messages, id)|
  {
    hide WorldInv, Next, TablesOk, DbInv, Inv, LogInv, EvidenceInv, FreshEvent;
    Parts(h, max, w);
    DbHasInv(h, max, w.db);
    Behind(max, w.db, id);
    assert IsClaimable(w.db.messages[id], stamp.at);
    assert RankOf(id, w.db.messages[id]) in Claimable(w.db, stamp.at);
    var y := First(Claimable(w.db, stamp.at)).id;
    assert y in Ahead(w.db.messages, id);
    StaysOverdue(h, max, w, step, stamp, id);
    NothingGetsAhead(h, max, w, step, stamp, id);
    ClaimedAttempts(h, max, w, step, stamp);
    var messages' := Next(h, max, w, step, stamp).db.messages;
    assert y !in Ahead(messages', id);
    SmallerSet(Ahead(messages', id), Ahead(w.db.messages, id), y);
  }

  lemma SmallerSet(a: set<string>, b: set<string>, y: string)
    requires a <= b && y in b && y !in a
    ensures |a| < |b|
  {
    SubsetSize(a, b - {y});
  }

  lemma {:induction false} SubsetSize(a: set<string>, b: set<string>)
    requires a <= b
    ensures |a| <= |b|
  {
    if a != {} {
      var x :| x in a;
      SubsetSize(a - {x}, b - {x});
    }
  }

  // -------------------------------------------------------------------- runs

  function ClaimSteps(run: seq<Event>): nat {
    if run == [] then 0 else (if run[0].step.ClaimStep? then 1 else 0) + ClaimSteps(run[1..])
  }

  /** No claim of the run picks the message. */
  predicate PassedOver(h: Hashes, max: nat, w: World, run: seq<Event>, id: string)
    requires Legal(h, max, w, run)
    decreases |run|
  {
    run != [] ==>
      && !Claims(w, run[0].step, run[0].stamp.at, id)
      && PassedOver(h, max, Next(h, max, w, run[0].step, run[0].stamp), run[1..], id)
  }

  lemma {:induction false} ClaimsUseUpAhead(h: Hashes, max: nat, w: World, run: seq<Event>, id: string)
    requires WorldInv(h, max, w) && max >= 1 && Legal(h, max, w, run) && NoExpiry(h, max, w, run)
    requires Overdue(w, id) && PassedOver(h, max, w, run, id)
    ensures Overdue(EndOf(h, max, w, run), id)
    ensures ClaimSteps(run) + |Ahead(EndOf(h, max, w, run).db.messages, id)| <= |Ahead(w.db.messages, id)|
    decreases |run|
  {
    hide WorldInv, Next, Enabled, Ahead, Claims, OnTime;
    if run != [] {
      var step, stamp := run[0].step, run[0].stamp;
      var next := Next(h, max, w, step, stamp);
      NextKeeps(h, max, w, step, stamp);
      StaysOverdue(h, max, w, step, stamp, id);
      NothingGetsAhead(h, max, w, step, stamp, id);
      SubsetSize(Ahead(next.db.messages, id), Ahead(w.db.messages, id));
      if step.ClaimStep? { ClaimTakesOneAhead(h, max, w, step, stamp, id); }
      ClaimsUseUpAhead(h, max, next, run[1..], id);
    }
  }

  /** In a run without lease expiry an overdue message is claimed within as many claims,
      plus one, as there were messages ahead of it. */
  lemma BoundedOvertaking(h: Hashes, max: nat, w: World, run: seq<Event>, id: string)
    requires max >= 1 && Reachable(h, max, w) && Legal(h, max, w, run) && NoExpiry(h, max, w, run) && Overdue(w, id)
    requires ClaimSteps(run) > |Ahead(w.db.messages, id)|
    ensures !PassedOver(h, max, w, run, id)
  {
    hide Reachable, WorldInv, Legal, NoExpiry, PassedOver, EndOf, Ahead, ClaimSteps;
    ReachableInv(h, max, w);
    if PassedOver(h, max, w, run, id) {
      ClaimsUseUpAhead(h, max, w, run, id);
      assert false;
    }
  }
}
