/** Delivery is at least once; a destination that deduplicates by key acts effectively
    once. */
module EffectivelyOnce {
  import opened Wrappers
  import opened Signals
  import opened Domain
  import opened Invariants
  import opened Replay
  import opened Evidence
  import opened Machine
  import opened MachineInvariants
  import opened Guarantees

  predicate KeySeen(deliveries: seq<Delivery>, key: string) {
    exists i :: 0 <= i < |deliveries| && deliveries[i].key == key
  }

  /** What a destination that ignores keys it has seen acts on. */
  function Effects(deliveries: seq<Delivery>): seq<Delivery> {
    if deliveries == [] then []
    else
      var earlier, last := Effects(deliveries[..|deliveries| - 1]), deliveries[|deliveries| - 1];
      if KeySeen(earlier, last.key) then earlier else earlier + [last]
  }

  /** Each key that was delivered has exactly one effect, and it is one of its
      deliveries. */
  lemma {:induction false} EffectsLaw(deliveries: seq<Delivery>)
    ensures forall i, j | 0 <= i < |Effects(deliveries)| && 0 <= j < |Effects(deliveries)|
            && Effects(deliveries)[i].key == Effects(deliveries)[j].key :: i == j
    ensures forall i :: 0 <= i < |Effects(deliveries)| ==> Effects(deliveries)[i] in deliveries
    ensures forall i :: 0 <= i < |deliveries| ==> KeySeen(Effects(deliveries), deliveries[i].key)
  {
    if deliveries != [] {
      var n := |deliveries| - 1;
      var before, last := deliveries[..n], deliveries[n];
      EffectsLaw(before);
      var earlier, effects := Effects(before), Effects(deliveries);
      assert last in deliveries;
      forall i | 0 <= i < |deliveries| ensures KeySeen(effects, deliveries[i].key) {
        if i < n {
          assert before[i] == deliveries[i];
          var k :| 0 <= k < |earlier| && earlier[k].key == deliveries[i].key;
          assert effects[k] == earlier[k];
        } else if !KeySeen(earlier, last.key) {
          assert effects[|earlier|] == last;
        }
      }
    }
  }

  /** Later deliveries never take an effect back. */
  lemma {:induction false} EffectsStay(deliveries: seq<Delivery>, more: seq<Delivery>)
    ensures Effects(deliveries) <= Effects(deliveries + more)
  {
    var all := deliveries + more;
    if more == [] {
      assert all == deliveries;
    } else {
      var less := more[..|more| - 1];
      EffectsStay(deliveries, less);
      assert all[..|all| - 1] == deliveries + less;
    }
  }

  /** All publishes of one dispatch carry the same key and the same signal; publishes of
      different dispatches never share a key. */
  lemma DeliveriesAgree(h: Hashes, max: nat, w: World, i: nat, j: nat)
    requires max >= 1 && Reachable(h, max, w) && i < |w.deliveries| && j < |w.deliveries|
    ensures w.deliveries[i].signal.dispatchId in w.db.dispatches
    ensures w.deliveries[i].signal.dispatchId == w.deliveries[j].signal.dispatchId <==>
              w.deliveries[i].key == w.deliveries[j].key
    ensures w.deliveries[i].key == w.deliveries[j].key ==> w.deliveries[i] == w.deliveries[j]
  {
    hide Reachable, Inv, TablesOk, LogInv, EvidenceInv, Decode, SignalOf, DeliveriesOk;
    ReachableParts(h, max, w);
    DeliveredRows(h, max, w, i);
    DeliveredRows(h, max, w, j);
    MessageColumnsUnique(max, w.db, w.deliveries[i].messageId, w.deliveries[j].messageId);
  }

  lemma MessageColumnsUnique(max: nat, db: Db, x: string, y: string)
    requires Inv(max, db) && x in db.messages && y in db.messages
    ensures db.messages[x].aggregateId == db.messages[y].aggregateId <==> x == y
    ensures db.messages[x].key == db.messages[y].key <==> x == y
  {
    assert MessagesOk(max, db.messages);
    hide Inv;
  }

  /** A delivery comes from a message, and carries its key, its dispatch's identity,
      target and window, and the external id of the asset. */
  lemma DeliveredRows(h: Hashes, max: nat, w: World, i: nat)
    requires Inv(max, w.db) && i < |w.deliveries|
    requires TablesOk(max, w.db.messages, w.flights, w.tokens, w.claims, w.deliveries, w.failures, w.clock)
    ensures var v := w.deliveries[i];
            && v.messageId in w.db.messages && v.key == w.db.messages[v.messageId].key
            && v.signal.dispatchId == w.db.messages[v.messageId].aggregateId
            && v.signal.dispatchId in w.db.dispatches
            && Decode(w.db.messages[v.messageId].payload) == Success(v.signal)
  {
    hide FlightsOk, Fenced, LocksOk, Reached, FailuresOk, ClockOk, Decode;
    var v := w.deliveries[i];
    assert DeliveriesOk(w.deliveries, w.db.messages);
    PayloadIsRow(max, w.db, v.messageId);
  }

  /** The stored payload of a message decodes to its own dispatch: identity, target,
      window and the asset's external id. */
  lemma PayloadIsRow(max: nat, db: Db, id: string)
    requires Inv(max, db) && id in db.messages
    ensures Carries(db.messages[id], db.dispatches, db.reservations, db.offers, db.assets)
    ensures Decode(db.messages[id].payload).Success?
    ensures Decode(db.messages[id].payload).value.dispatchId == db.messages[id].aggregateId
    ensures db.messages[id].aggregateId in db.dispatches
  {
    assert Payloads(db.messages, db.dispatches, db.reservations, db.offers, db.assets);
    hide Inv, Decode;
  }

  /** In every reachable state each message's payload decodes to its own dispatch row's
      identity, target and window and to the external id of the asset behind it. */
  lemma PayloadsTellRows(h: Hashes, max: nat, w: World, id: string)
    requires max >= 1 && Reachable(h, max, w) && id in w.db.messages
    ensures Carries(w.db.messages[id], w.db.dispatches, w.db.reservations, w.db.offers, w.db.assets)
  {
    hide Reachable, Inv, TablesOk, LogInv, EvidenceInv, Carries;
    ReachableParts(h, max, w);
    PayloadIsRow(max, w.db, id);
  }

  /** An effect is for a given dispatch. */
  predicate ActedOn(w: World, d: string, i: nat)
    requires i < |Effects(w.deliveries)|
  {
    Effects(w.deliveries)[i].signal.dispatchId == d
  }

  /** A destination that deduplicates by key acts at most once on each dispatch, exactly
      once on each issued or completed one, and then with the asset, target and window
      of its row. */
  lemma EffectivelyOnce(h: Hashes, max: nat, w: World, d: string)
    requires max >= 1 && Reachable(h, max, w) && d in w.db.dispatches
    ensures forall i, j | 0 <= i < |Effects(w.deliveries)| && 0 <= j < |Effects(w.deliveries)| && ActedOn(w, d, i)
            && ActedOn(w, d, j) :: i == j
    ensures w.db.dispatches[d].status in {Issued, DispatchCompleted} ==>
              exists i: nat :: i < |Effects(w.deliveries)| && ActedOn(w, d, i)
    ensures forall i :: 0 <= i < |Effects(w.deliveries)| && ActedOn(w, d, i) ==>
              && w.db.dispatches[d].reservationId in w.db.reservations
              && w.db.reservations[w.db.dispatches[d].reservationId].offerId in w.db.offers
              && w.db.offers[w.db.reservations[w.db.dispatches[d].reservationId].offerId].assetId in w.db.assets
              && SignalOf(Effects(w.deliveries)[i].signal, d, w.db.dispatches[d],
                          w.db.assets[w.db.offers[w.db.reservations[w.db.dispatches[d].reservationId].offerId].assetId])
  {
    hide Reachable, Inv, TablesOk, LogInv, EvidenceInv, Decode, SignalOf, Effects;
    ReachableParts(h, max, w);
    EffectsLaw(w.deliveries);
    var effects := Effects(w.deliveries);
    forall i, j | 0 <= i < |effects| && 0 <= j < |effects| && ActedOn(w, d, i) && ActedOn(w, d, j) ensures i == j {
      var a, b := Source(w.deliveries, i), Source(w.deliveries, j);
      DeliveriesAgree(h, max, w, a, b);
    }
    forall i | 0 <= i < |effects| && ActedOn(w, d, i)
      ensures Source(w.deliveries, i) < |w.deliveries|
      ensures w.deliveries[Source(w.deliveries, i)].messageId in w.db.messages
      ensures Carries(w.db.messages[w.deliveries[Source(w.deliveries, i)].messageId], w.db.dispatches,
                      w.db.reservations, w.db.offers, w.db.assets)
      ensures w.db.messages[w.deliveries[Source(w.deliveries, i)].messageId].aggregateId == d
      ensures Decode(w.db.messages[w.deliveries[Source(w.deliveries, i)].messageId].payload)
              == Success(effects[i].signal)
    {
      var a := Source(w.deliveries, i);
      DeliveredRows(h, max, w, a);
      PayloadIsRow(max, w.db, w.deliveries[a].messageId);
    }
    if w.db.dispatches[d].status in {Issued, DispatchCompleted} { IssuedIsActedOn(h, max, w, d); }
  }

  /** The delivery that had a given effect. */
  ghost function Source(deliveries: seq<Delivery>, i: nat): (k: nat)
    requires i < |Effects(deliveries)|
    ensures k < |deliveries| && deliveries[k] == Effects(deliveries)[i]
  {
    EffectsLaw(deliveries);
    assert Effects(deliveries)[i] in deliveries;
    var k :| 0 <= k < |deliveries| && deliveries[k] == Effects(deliveries)[i];
    k
  }

  lemma IssuedIsActedOn(h: Hashes, max: nat, w: World, d: string)
    requires Inv(max, w.db) && d in w.db.dispatches && w.db.dispatches[d].status in {Issued, DispatchCompleted}
    requires TablesOk(max, w.db.messages, w.flights, w.tokens, w.claims, w.deliveries, w.failures, w.clock)
    ensures exists i: nat :: i < |Effects(w.deliveries)| && ActedOn(w, d, i)
  {
    hide Inv, TablesOk, Decode, Effects;
    var id := MessageOf(max, w.db, d);
    assert HasDelivery(w.deliveries, id) by { PublishedReached(max, w, id); }
    var k :| 0 <= k < |w.deliveries| && w.deliveries[k].messageId == id;
    EffectsLaw(w.deliveries);
    assert KeySeen(Effects(w.deliveries), w.deliveries[k].key);
    var i: nat :| i < |Effects(w.deliveries)| && Effects(w.deliveries)[i].key == w.deliveries[k].key;
    var a := Source(w.deliveries, i);
    DeliveredRows(h, max, w, a);
    DeliveredRows(h, max, w, k);
    MessageColumnsUnique(max, w.db, w.deliveries[a].messageId, id);
    assert ActedOn(w, d, i);
  }

  lemma PublishedReached(max: nat, w: World, id: string)
    requires TablesOk(max, w.db.messages, w.flights, w.tokens, w.claims, w.deliveries, w.failures, w.clock)
    requires id in w.db.messages && w.db.messages[id].status == Published
    ensures HasDelivery(w.deliveries, id)
  {
    hide FlightsOk, Fenced, LocksOk, DeliveriesOk, FailuresOk, ClockOk, HasDelivery;
  }

  /** The one message of a dispatch; it is published if and only if the dispatch is
      issued or completed. */
  ghost function MessageOf(max: nat, db: Db, d: string): (id: string)
    requires Inv(max, db) && d in db.dispatches
    ensures id in db.messages && db.messages[id].aggregateId == d
    ensures db.messages[id].status == Published <==> db.dispatches[d].status in {Issued, DispatchCompleted}
  {
    assert DispatchStages(db.dispatches, db.messages) && JointStatus(db.messages, db.dispatches, db.reservations);
    hide Inv;
    var id :| id in db.messages && db.messages[id].aggregateId == d;
    id
  }
}
