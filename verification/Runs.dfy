/** Runs: splitting and joining them, and what they never change. */
module Runs {
  import opened Domain
  import opened Outbox
  import opened Invariants
  import opened Preservation
  import opened Machine
  import opened MachineInvariants
  import opened MachineSafety
  import opened Guarantees

  lemma {:induction false} RunsJoin(h: Hashes, max: nat, w: World, run: seq<Event>, more: seq<Event>)
    requires Legal(h, max, w, run) && Legal(h, max, EndOf(h, max, w, run), more)
    ensures Legal(h, max, w, run + more) && EndOf(h, max, w, run + more) == EndOf(h, max, EndOf(h, max, w, run), more)
    decreases |run|
  {
    hide Enabled, Next;
    if run == [] {
      assert run + more == more;
    } else {
      RunsJoin(h, max, Next(h, max, w, run[0].step, run[0].stamp), run[1..], more);
      assert (run + more)[0] == run[0] && (run + more)[1..] == run[1..] + more;
    }
  }

  lemma ReachableOn(h: Hashes, max: nat, w: World, run: seq<Event>)
    requires Reachable(h, max, w) && Legal(h, max, w, run)
    ensures Reachable(h, max, EndOf(h, max, w, run))
  {
    hide Legal, EndOf;
    var clock, before :| Legal(h, max, Start(clock), before) && w == EndOf(h, max, Start(clock), before);
    RunsJoin(h, max, Start(clock), before, run);
  }

  lemma ReachableNext(h: Hashes, max: nat, w: World, step: Step, stamp: Stamp)
    requires Reachable(h, max, w) && Enabled(max, w, step, stamp)
    ensures Reachable(h, max, Next(h, max, w, step, stamp))
  {
    hide Reachable, Enabled, Next;
    var run := [Event(step, stamp)];
    assert run[0] == Event(step, stamp) && run[1..] == [];
    assert EndOf(h, max, w, run) == Next(h, max, w, step, stamp) by {
      assert Legal(h, max, Next(h, max, w, step, stamp), run[1..]);
    }
    ReachableOn(h, max, w, run);
  }

  lemma NextExtends(h: Hashes, max: nat, w: World, step: Step, stamp: Stamp)
    requires WorldInv(h, max, w) && max >= 1 && Enabled(max, w, step, stamp)
    ensures Extends(w.db, Next(h, max, w, step, stamp).db)
  {
    hide WorldInv, DbInv, TablesOk, Inv, Extends, Perform, Claim, Finalized, FlightsOk, Fenced, LocksOk, FailuresOk,
      Reached;
    Parts(h, max, w);
    DbHasInv(h, max, w.db);
    match step
    case Api(c) => PerformKeeps(h, max, w.db, c, stamp);
    case ClaimStep(cfg, token) =>
      ClaimKeeps(max, w.db, cfg, token, stamp.at); ExtendsReflexive(w.db); ClaimNone(w.db, cfg, token, stamp.at);
    case PublishStep(_, _, _) => ExtendsReflexive(w.db);
    case FinalizeStep(token) =>
      TablesHave(max, w, w.clock);
      FlightFaithful(max, w, token);
      FinalizedExtends(h, max, w.db, w.flights[token], stamp);
    case CrashStep(_) => ExtendsReflexive(w.db);
  }

  lemma ClaimNone(db: Db, cfg: WorkerConfig, token: string, now: int)
    ensures Claim(db, cfg, token, now).claimed.None? ==> Claim(db, cfg, token, now).db == db
  {
  }

  lemma FinalizedExtends(h: Hashes, max: nat, db: Db, f: Flight, stamp: Stamp)
    requires Inv(max, db) && Faithful(db, f.claimed) && f.cfg.maxAttempts == max && f.response.Some?
    ensures Extends(db, Finalized(h, db, f, stamp))
  {
    hide Inv, Extends, RecordSuccess, RecordFailure;
    ExtendsReflexive(db);
    match f.response.value
    case Ack(reference) => SuccessKeeps(h, max, db, f.cfg, f.claimed, reference, stamp);
    case Raise(error) => FailureKeeps(h, max, db, f.cfg, f.claimed, error, stamp);
  }

  /** Over any run rows and events are only added: identities, quantities, windows,
      readings, settlements, idempotency records and the log so far stay as they are. */
  lemma {:induction false} RunExtends(h: Hashes, max: nat, w: World, run: seq<Event>)
    requires WorldInv(h, max, w) && max >= 1 && Legal(h, max, w, run)
    ensures Extends(w.db, EndOf(h, max, w, run).db)
    decreases |run|
  {
    hide WorldInv, Enabled, Next, Extends;
    if run == [] {
      ExtendsReflexive(w.db);
    } else {
      var next := Next(h, max, w, run[0].step, run[0].stamp);
      NextKeeps(h, max, w, run[0].step, run[0].stamp);
      NextExtends(h, max, w, run[0].step, run[0].stamp);
      RunExtends(h, max, next, run[1..]);
      ExtendsTransitive(w.db, next.db, EndOf(h, max, w, run).db);
    }
  }
}
