/** The retry budget: what holds in spite of crashes, and exactly when attempts stay
    within it. */
module RetryBudget {
  import opened Ordering
  import opened Domain
  import opened Outbox
  import opened Invariants
  import opened Preservation
  import opened Replay
  import opened Evidence
  import opened Machine
  import opened MachineInvariants
  import opened MachineSafety
  import opened Guarantees
  import opened MessageSteps

  /** A pending message has budget left, and the failures recorded since it was queued or
      re-driven never exceed the budget, however many claims were lost to crashes. */
  lemma FailureBudget(h: Hashes, max: nat, w: World, id: string)
    requires max >= 1 && Reachable(h, max, w) && id in w.db.messages
    ensures w.db.messages[id].status == Pending ==> w.db.messages[id].attempts < max
    ensures FailuresOf(w, id) <= max && FailuresOf(w, id) <= w.db.messages[id].attempts
  {
    hide Reachable, Inv, LogInv, EvidenceInv, TablesOk, LocksOk, Reached, FlightsOk, Fenced;
    ReachableParts(h, max, w);
    TablesHave(max, w, w.clock);
    Behind(max, w.db, id);
    assert FailureCount(max, w.db.messages[id], FailuresOf(w, id));
  }

  // ---------------------------------------------------------------- attempts

  predicate WithinAttempts(max: nat, messages: Messages) {
    forall x :: x in messages ==> messages[x].attempts <= max
  }

  /** The claim picks up an expired lease of a message whose budget is used up; the claim
      transaction has no check for this. */
  predicate Overdrawn(max: nat, w: World, step: Step, now: int) {
    && step.ClaimStep? && Claimable(w.db, now) != {}
    && w.db.messages[First(Claimable(w.db, now)).id].status == Processing
    && w.db.messages[First(Claimable(w.db, now)).id].attempts >= max
  }

  lemma AttemptsNext(h: Hashes, max: nat, w: World, step: Step, stamp: Stamp)
    requires WorldInv(h, max, w) && max >= 1 && Enabled(max, w, step, stamp) && WithinAttempts(max, w.db.messages)
    ensures WithinAttempts(max, Next(h, max, w, step, stamp).db.messages) <==> !Overdrawn(max, w, step, stamp.at)
  {
    hide WorldInv, Next, Enabled, RowsStep, WithinAttempts, TablesOk, DbInv, Inv, LogInv, EvidenceInv;
    RowsNext(h, max, w, step, stamp);
    var messages' := Next(h, max, w, step, stamp).db.messages;
    if step.ClaimStep? && Claimable(w.db, stamp.at) != {} {
      Parts(h, max, w);
      DbHasInv(h, max, w.db);
      Behind(max, w.db, First(Claimable(w.db, stamp.at)).id);
      ClaimedAttempts(h, max, w, step, stamp);
      AttemptsClaimed(max, w, step, stamp.at, messages');
    } else {
      AttemptsUnclaimed(max, w, step, stamp.at, messages');
    }
  }

  /** A step that claims nothing. */
  lemma AttemptsUnclaimed(max: nat, w: World, step: Step, now: int, messages': Messages)
    requires RowsStep(w, step, now, w.db.messages, messages') && WithinAttempts(max, w.db.messages)
    requires !(step.ClaimStep? && Claimable(w.db, now) != {})
    ensures WithinAttempts(max, messages')
  {
    hide Finalizes, ErrorText, RetryDelay, IsClaimable;
    forall x | x in messages' ensures messages'[x].attempts <= max {
      if x in w.db.messages { assert RowStep(w, step, now, x, w.db.messages[x], messages'[x]); }
    }
  }

  /** A step that claims the first claimable message. */
  lemma AttemptsClaimed(max: nat, w: World, step: Step, now: int, messages': Messages)
    requires RowsStep(w, step, now, w.db.messages, messages') && WithinAttempts(max, w.db.messages)
    requires step.ClaimStep? && Claimable(w.db, now) != {}
    requires var id := First(Claimable(w.db, now)).id;
             && id in messages' && messages'[id].attempts == w.db.messages[id].attempts + 1
             && WithinBudget(max, w.db.messages[id])
    ensures WithinAttempts(max, messages') <==> !Overdrawn(max, w, step, now)
  {
    hide Finalizes, ErrorText, RetryDelay;
    var id := First(Claimable(w.db, now)).id;
    assert IsClaimable(w.db.messages[id], now);
    hide IsClaimable;
    forall x | x in messages' && x != id ensures messages'[x].attempts <= max {
      if x in w.db.messages { assert RowStep(w, step, now, x, w.db.messages[x], messages'[x]); }
    }
  }

  lemma ClaimedAttempts(h: Hashes, max: nat, w: World, step: Step, stamp: Stamp)
    requires Enabled(max, w, step, stamp) && step.ClaimStep? && Claimable(w.db, stamp.at) != {}
    ensures var id := First(Claimable(w.db, stamp.at)).id;
            && id in Next(h, max, w, step, stamp).db.messages
            && Next(h, max, w, step, stamp).db.messages[id]
                == Leased(w.db.messages[id], step.cfg.lease, step.token, stamp.at)
  {
    hide FreshEvent;
  }

  predicate StaysWithin(h: Hashes, max: nat, w: World, run: seq<Event>)
    requires Legal(h, max, w, run)
    decreases |run|
  {
    WithinAttempts(max, w.db.messages)
    && (run != [] ==> StaysWithin(h, max, Next(h, max, w, run[0].step, run[0].stamp), run[1..]))
  }

  predicate NeverOverdrawn(h: Hashes, max: nat, w: World, run: seq<Event>)
    requires Legal(h, max, w, run)
    decreases |run|
  {
    run != [] ==>
      && !Overdrawn(max, w, run[0].step, run[0].stamp.at)
      && NeverOverdrawn(h, max, Next(h, max, w, run[0].step, run[0].stamp), run[1..])
  }

  lemma {:induction false} BudgetKept(h: Hashes, max: nat, w: World, run: seq<Event>)
    requires WorldInv(h, max, w) && max >= 1 && Legal(h, max, w, run) && WithinAttempts(max, w.db.messages)
    ensures StaysWithin(h, max, w, run) <==> NeverOverdrawn(h, max, w, run)
    decreases |run|
  {
    hide WorldInv, Next, Enabled, WithinAttempts, Overdrawn;
    if run != [] {
      var next := Next(h, max, w, run[0].step, run[0].stamp);
      NextKeeps(h, max, w, run[0].step, run[0].stamp);
      AttemptsNext(h, max, w, run[0].step, run[0].stamp);
      if WithinAttempts(max, next.db.messages) { BudgetKept(h, max, next, run[1..]); }
    }
  }

  /** Attempts stay within the budget throughout a run if and only if no claim of the
      run picks up an expired lease of a message with no budget left. */
  lemma AttemptsBoundedExactly(h: Hashes, max: nat, clock: int, run: seq<Event>)
    requires max >= 1 && Legal(h, max, Start(clock), run)
    ensures StaysWithin(h, max, Start(clock), run) <==> NeverOverdrawn(h, max, Start(clock), run)
  {
    hide WorldInv, Legal, StaysWithin, NeverOverdrawn;
    StartOk(h, max, clock);
    BudgetKept(h, max, Start(clock), run);
  }

  // ------------------------------------------------------ without lease expiry

  /** No lease has run out when a claim is made. */
  predicate NoExpiry(h: Hashes, max: nat, w: World, run: seq<Event>)
    requires Legal(h, max, w, run)
    decreases |run|
  {
    run != [] ==>
      && OnTime(w, run[0].step, run[0].stamp.at)
      && NoExpiry(h, max, Next(h, max, w, run[0].step, run[0].stamp), run[1..])
  }

  predicate OnTime(w: World, step: Step, now: int) {
    step.ClaimStep? ==> forall x :: x in w.db.messages ==> !LeaseExpired(w.db.messages[x], now)
  }

  lemma {:induction false} NoExpiryNeverOverdraws(h: Hashes, max: nat, w: World, run: seq<Event>)
    requires Legal(h, max, w, run) && NoExpiry(h, max, w, run)
    ensures NeverOverdrawn(h, max, w, run)
    decreases |run|
  {
    hide Next, Enabled;
    if run != [] { NoExpiryNeverOverdraws(h, max, Next(h, max, w, run[0].step, run[0].stamp), run[1..]); }
  }

  /** A dead message has used up its budget. */
  predicate DeadExhausted(max: nat, messages: Messages) {
    forall x :: x in messages && messages[x].status == Dead ==> messages[x].attempts >= max
  }

  lemma DeadNext(h: Hashes, max: nat, w: World, step: Step, stamp: Stamp)
    requires WorldInv(h, max, w) && Enabled(max, w, step, stamp) && DeadExhausted(max, w.db.messages)
    ensures DeadExhausted(max, Next(h, max, w, step, stamp).db.messages)
  {
    hide WorldInv, Next, Enabled, Claimable, ErrorText, RetryDelay, TablesOk, DbInv, FlightsOk, LocksOk, Fenced,
      Reached, FailuresOk;
    RowsNext(h, max, w, step, stamp);
    Parts(h, max, w);
    TablesHave(max, w, w.clock);
    if step.FinalizeStep? && step.token in w.flights { FlightFaithful(max, w, step.token); }
  }

  lemma {:induction false} DeadRun(h: Hashes, max: nat, w: World, run: seq<Event>)
    requires WorldInv(h, max, w) && max >= 1 && Legal(h, max, w, run) && DeadExhausted(max, w.db.messages)
    ensures DeadExhausted(max, EndOf(h, max, w, run).db.messages)
    decreases |run|
  {
    hide WorldInv, Next, Enabled, DeadExhausted;
    if run != [] {
      NextKeeps(h, max, w, run[0].step, run[0].stamp);
      DeadNext(h, max, w, run[0].step, run[0].stamp);
      DeadRun(h, max, Next(h, max, w, run[0].step, run[0].stamp), run[1..]);
    }
  }

  lemma {:induction false} EndStays(h: Hashes, max: nat, w: World, run: seq<Event>)
    requires Legal(h, max, w, run) && StaysWithin(h, max, w, run)
    ensures WithinAttempts(max, EndOf(h, max, w, run).db.messages)
    decreases |run|
  {
    hide Next, Enabled, WithinAttempts;
    if run != [] { EndStays(h, max, Next(h, max, w, run[0].step, run[0].stamp), run[1..]); }
  }

  /** In a run without lease expiry attempts never exceed the budget, and a dead message
      has had exactly the budgeted attempts. */
  lemma BudgetWithoutExpiry(h: Hashes, max: nat, clock: int, run: seq<Event>, id: string)
    requires max >= 1 && Legal(h, max, Start(clock), run) && NoExpiry(h, max, Start(clock), run)
    requires id in EndOf(h, max, Start(clock), run).db.messages
    ensures var m := EndOf(h, max, Start(clock), run).db.messages[id];
            m.attempts <= max && (m.status == Dead ==> m.attempts == max)
  {
    hide WorldInv, Legal, EndOf, NoExpiry, StaysWithin, NeverOverdrawn;
    StartOk(h, max, clock);
    NoExpiryNeverOverdraws(h, max, Start(clock), run);
    AttemptsBoundedExactly(h, max, clock, run);
    EndStays(h, max, Start(clock), run);
    DeadRun(h, max, Start(clock), run);
  }
}
