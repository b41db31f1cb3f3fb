/** How one step can change one row of the outbox. */
module MessageSteps {
  import opened Wrappers
  import opened Text
  import opened Ordering
  import opened Signals
  import opened Domain
  import opened Outbox
  import opened Invariants
  import opened Preservation
  import opened Replay
  import opened Evidence
  import opened Machine
  import opened MachineInvariants
  import opened MachineSafety

  /** The row after a re-drive. */
  function Rearmed(m: Message, now: int): Message {
    m.(status := Pending, attempts := 0, availableAt := now, leaseExpiresAt := None, lockedBy := None,
       adapterReference := None, lastError := None, publishedAt := None, updatedAt := now)
  }

  predicate Claims(w: World, step: Step, now: int, id: string) {
    step.ClaimStep? && Claimable(w.db, now) != {} && First(Claimable(w.db, now)).id == id
  }

  predicate Finalizes(w: World, step: Step, id: string) {
    && step.FinalizeStep? && step.token in w.flights && w.flights[step.token].response.Some?
    && w.flights[step.token].claimed.id == id && HoldsLease(w.db, w.flights[step.token].claimed)
  }

  /** The ways a row can change: a claim, a finalization that holds the lease, a
      re-drive. */
  predicate RowStep(w: World, step: Step, now: int, id: string, m: Message, m': Message) {
    || m' == m
    || (Claims(w, step, now, id) && IsClaimable(m, now) && m' == Leased(m, step.cfg.lease, step.token, now))
    || (Finalizes(w, step, id) && m.lockedBy == Some(step.token) && m' == FinalRow(m, w.flights[step.token], now))
    || (m.status == Dead && m' == Rearmed(m, now))
  }

  predicate NewRow(m: Message, now: int) {
    m.status == Pending && m.attempts == 0 && m.lockedBy.None? && m.availableAt == now && m.createdAt == now
  }

  predicate RowsStep(w: World, step: Step, now: int, messages: Messages, messages': Messages) {
    && (forall x :: x in messages ==> x in messages' && RowStep(w, step, now, x, messages[x], messages'[x]))
    && (forall x :: x in messages' && x !in messages ==> NewRow(messages'[x], now))
  }

  lemma RowsNext(h: Hashes, max: nat, w: World, step: Step, stamp: Stamp)
    requires WorldInv(h, max, w) && Enabled(max, w, step, stamp)
    ensures RowsStep(w, step, stamp.at, w.db.messages, Next(h, max, w, step, stamp).db.messages)
  {
    hide WorldInv, RowStep, Perform, Claim, Finalized, FreshEvent;
    assert RowsStep(w, step, stamp.at, w.db.messages, w.db.messages) by { SameRows(w, step, stamp.at); }
    match step
    case Api(c) => ApiRows(h, w, c, stamp);
    case ClaimStep(cfg, token) => ClaimRows(w, cfg, token, stamp.at); ClaimedNone(w.db, cfg, token, stamp.at);
    case PublishStep(_, _, _) =>
    case FinalizeStep(token) => FinalizeRows(h, max, w, token, stamp);
    case CrashStep(_) =>
  }

  lemma SameRows(w: World, step: Step, now: int)
    ensures RowsStep(w, step, now, w.db.messages, w.db.messages)
  {
    hide Claims, Finalizes;
  }

  lemma ApiRows(h: Hashes, w: World, c: Command, stamp: Stamp)
    requires Admissible(w.db, c)
    ensures RowsStep(w, Api(c), stamp.at, w.db.messages, Perform(h, w.db, c, stamp).messages)
  {
    hide Claims, Finalizes, Admissible;
    if c.RedriveCommand? {
      hide Squeeze, LogEvent;
    } else {
      hide Perform;
      PerformMessages(h, w.db, c, stamp);
    }
  }

  lemma ClaimedNone(db: Db, cfg: WorkerConfig, token: string, now: int)
    ensures Claim(db, cfg, token, now).claimed.None? ==> Claim(db, cfg, token, now).db == db
    ensures Claim(db, cfg, token, now).claimed.None? <==> Claimable(db, now) == {}
  {
  }

  lemma ClaimRows(w: World, cfg: WorkerConfig, token: string, now: int)
    ensures RowsStep(w, ClaimStep(cfg, token), now, w.db.messages, Claim(w.db, cfg, token, now).db.messages)
  {
  }

  lemma FinalizeRows(h: Hashes, max: nat, w: World, token: string, stamp: Stamp)
    requires WorldInv(h, max, w) && token in w.flights && w.flights[token].response.Some?
    ensures RowsStep(w, FinalizeStep(token), stamp.at, w.db.messages,
                     Finalized(h, w.db, w.flights[token], stamp).messages)
  {
    hide WorldInv, TablesOk, DbInv, FlightsOk, Finalized, Faithful, Inv, Fenced, LocksOk, FailuresOk, Reached, FinalRow,
      Claims, Claimable, RowsStep, HoldsLease, EvidenceInv, LogInv;
    Parts(h, max, w);
    TablesHave(max, w, w.clock);
    FlightFaithful(max, w, token);
    DbHasInv(h, max, w.db);
    var f := w.flights[token];
    if HoldsLease(w.db, f.claimed) {
      FinalizedMessages(h, max, w.db, f, stamp);
      FinalRows(w, token, stamp.at);
    } else {
      FinalizeDb(h, max, w.db, f, stamp);
      SameRows(w, FinalizeStep(token), stamp.at);
    }
  }

  lemma FinalRows(w: World, token: string, now: int)
    requires token in w.flights && w.flights[token].response.Some? && w.flights[token].claimed.token == token
    requires HoldsLease(w.db, w.flights[token].claimed)
    ensures var f := w.flights[token];
            var id := f.claimed.id;
            RowsStep(w, FinalizeStep(token), now, w.db.messages,
                     w.db.messages[id := FinalRow(w.db.messages[id], f, now)])
  {
    hide FinalRow, Claims;
  }

  /** The clock never runs backwards. */
  lemma ClockNext(h: Hashes, max: nat, w: World, step: Step, stamp: Stamp)
    requires Enabled(max, w, step, stamp)
    ensures Next(h, max, w, step, stamp).clock == stamp.at >= w.clock
    ensures w.tokens <= Next(h, max, w, step, stamp).tokens
  {
    hide Perform, Claim, Finalized, FreshEvent, Admissible, Decode;
  }
}
