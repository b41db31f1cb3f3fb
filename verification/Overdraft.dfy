/** A run in which attempts exceed the budget: workers that crash between claim and
    finalization make the next claim overdraw it. */
module Overdraft {
  import opened Text
  import opened Decimals
  import opened Ordering
  import opened Signals
  import opened Domain
  import opened Outbox
  import opened Invariants
  import opened Preservation
  import opened Replay
  import opened Evidence
  import opened Machine
  import opened MachineInvariants
  import opened Guarantees
  import opened Runs

  lemma {:induction false} LongerThanAll(s: set<string>) returns (n: nat)
    ensures forall x :: x in s ==> |x| < n
  {
    if s == {} {
      n := 0;
    } else {
      var x :| x in s;
      var k := LongerThanAll(s - {x});
      n := if k > |x| then k else |x| + 1;
    }
  }

  lemma FreshText(s: set<string>) returns (t: string)
    ensures t !in s
  {
    var n := LongerThanAll(s);
    t := Zeros(n);
  }

  lemma FreshStamp(db: Db, at: int) returns (stamp: Stamp)
    ensures stamp.at == at && FreshEvent(db, stamp.eventId)
  {
    var used := set i | 0 <= i < |db.log| :: db.log[i].hashed.eventId;
    var id := FreshText(used);
    stamp := Stamp(id, at);
  }

  // ------------------------------------------------- one message in the outbox

  const ONE := Decimal(1, 0)

  lemma OneIsMillion()
    ensures Numeric18(ONE) && Micro(ONE) == 1_000_000
  {
    assert Pow10(6) == 1_000_000;
    Pow10Monotone(7, 18);
    assert Pow10(7) == 10_000_000;
  }

  const OWNER := Actor("owner", AssetOwner)
  const OPERATOR := Actor("operator", MarketOperator)

  /** The empty start. */
  lemma Started(h: Hashes, max: nat)
    ensures Reachable(h, max, Start(0))
  {
    assert Legal(h, max, Start(0), []) && EndOf(h, max, Start(0), []) == Start(0);
  }

  lemma Registered(h: Hashes, max: nat) returns (w: World)
    requires max >= 1
    ensures Reachable(h, max, w) && w.clock == 0 && w.tokens == {}
    ensures w.db == Db(map["a" := Asset("x", "owner", Battery, 1_000_000, "z", Active)], map[], map[], map[], map[],
                       map[], map[], map[], w.db.log)
  {
    hide Reachable, LogEvent;
    OneIsMillion();
    Started(h, max);
    var start := Start(0);
    var stamp := FreshStamp(start.db, 0);
    var c := RegisterCommand(AssetCreate("x", "owner", Battery, ONE, "z"), OWNER, "a", "c");
    w := Next(h, max, start, Api(c), stamp);
    ReachableNext(h, max, start, Api(c), stamp);
  }

  lemma Offered(h: Hashes, max: nat) returns (w: World)
    requires max >= 1
    ensures Reachable(h, max, w) && w.clock == 0 && w.tokens == {}
    ensures w.db == Db(map["a" := Asset("x", "owner", Battery, 1_000_000, "z", Active)],
                       map["f" := Offer("a", 0, 1, Increase, 1_000_000, 1_000_000, Open, "owner")],
                       map[], map[], map[], map[], map[], map[], w.db.log)
  {
    hide Reachable, LogEvent, Numeric18, Micro;
    OneIsMillion();
    var before := Registered(h, max);
    var stamp := FreshStamp(before.db, 0);
    var c := OfferCommand(OfferCreate("a", Zoned(0, 0), Zoned(1, 0), Increase, ONE, ONE), OWNER, "f", "c");
    w := Next(h, max, before, Api(c), stamp);
    ReachableNext(h, max, before, Api(c), stamp);
  }

  lemma KeyReal()
    ensures !Blank("key")
  {
    assert "key"[0] == 'k';
  }

  lemma Held(h: Hashes, max: nat) returns (w: World)
    requires max >= 1
    ensures Reachable(h, max, w) && w.clock == 0 && w.tokens == {}
    ensures w.db == Db(map["a" := Asset("x", "owner", Battery, 1_000_000, "z", Active)],
                       map["f" := Offer("a", 0, 1, Increase, 1_000_000, 1_000_000, OfferReserved, "owner")],
                       map["r" := Reservation("f", 1_000_000, Reserved, "operator")],
                       map[], map[], map[], w.db.idempotency, map[], w.db.log)
    ensures (IssueDispatch, "key") !in w.db.idempotency
  {
    hide Reachable, LogEvent, Numeric18, Micro, Blank;
    OneIsMillion();
    KeyReal();
    var before := Offered(h, max);
    var stamp := FreshStamp(before.db, 0);
    var c := ReserveCommand("f", ReservationCreate(ONE), OPERATOR, "key", "r");
    w := Next(h, max, before, Api(c), stamp);
    ReachableNext(h, max, before, Api(c), stamp);
  }

  /** A reachable state with a single message, not claimed yet. */
  lemma Enqueued(h: Hashes, max: nat) returns (w: World)
    requires max >= 1
    ensures Reachable(h, max, w) && w.db.messages.Keys == {"m"} && w.db.messages["m"].status == Pending
    ensures w.db.messages["m"].attempts == 0
  {
    hide Reachable, LogEvent, Numeric18, Micro, Blank, DispatchPayload;
    OneIsMillion();
    KeyReal();
    var before := Held(h, max);
    var stamp := FreshStamp(before.db, 0);
    var c := IssueCommand("r", DispatchCreate(ONE, Zoned(0, 0), Zoned(1, 0)), OPERATOR, "key", "d", "m");
    w := Next(h, max, before, Api(c), stamp);
    ReachableNext(h, max, before, Api(c), stamp);
  }

  // ------------------------------------------------------------ crashed claims

  /** A worker claims the only message and crashes. */
  lemma ClaimAndCrash(h: Hashes, max: nat, w: World, id: string) returns (w': World)
    requires max >= 1 && Reachable(h, max, w) && w.db.messages.Keys == {id}
    requires w.db.messages[id].status in {Pending, Processing}
    ensures Reachable(h, max, w') && w'.db.messages.Keys == {id} && w'.db.messages[id].status == Processing
    ensures w'.db.messages[id].attempts == w.db.messages[id].attempts + 1
  {
    hide Reachable, Inv, LogInv, EvidenceInv, TablesOk, FreshEvent;
    var m := w.db.messages[id];
    var token := FreshText(w.tokens);
    var now := Latest(w.clock, Latest(m.availableAt, if m.leaseExpiresAt.Some? then m.leaseExpiresAt.value else 0));
    ReachableParts(h, max, w);
    Behind(max, w.db, id);
    var stamp := FreshStamp(w.db, now);
    var cfg := WorkerConfig("worker", max, 1, 1, 1);
    assert IsClaimable(m, now);
    var claimed := Next(h, max, w, ClaimStep(cfg, token), stamp);
    OnlyClaimable(w.db, id, now);
    ReachableNext(h, max, w, ClaimStep(cfg, token), stamp);
    var crash := FreshStamp(claimed.db, now);
    w' := Next(h, max, claimed, CrashStep(token), crash);
    ReachableNext(h, max, claimed, CrashStep(token), crash);
  }

  function Latest(a: int, b: int): int { if a < b then b else a }

  lemma OnlyClaimable(db: Db, id: string, now: int)
    requires db.messages.Keys == {id} && IsClaimable(db.messages[id], now)
    ensures Claimable(db, now) != {} && First(Claimable(db, now)).id == id
  {
    assert RankOf(id, db.messages[id]) in Claimable(db, now);
  }

  lemma {:induction false} ManyAttempts(h: Hashes, max: nat, n: nat) returns (w: World)
    requires max >= 1
    ensures Reachable(h, max, w) && w.db.messages.Keys == {"m"} && w.db.messages["m"].status in {Pending, Processing}
    ensures w.db.messages["m"].attempts == n
  {
    if n == 0 {
      w := Enqueued(h, max);
    } else {
      var before := ManyAttempts(h, max, n - 1);
      w := ClaimAndCrash(h, max, before, "m");
    }
  }

  /** Whatever the budget, attempts can exceed it by any amount: crashes between claim
      and finalization are all it takes. */
  lemma AttemptsCanExceed(h: Hashes, max: nat, excess: nat)
    requires max >= 1
    ensures exists w, id :: Reachable(h, max, w) && id in w.db.messages && w.db.messages[id].attempts == max + excess
  {
    hide Reachable;
    var w := ManyAttempts(h, max, max + excess);
    assert "m" in w.db.messages;
  }
}
