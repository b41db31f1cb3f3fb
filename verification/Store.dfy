/** The database as a mutable object: one field per table, rows replaced in place. */
module Store {
  import opened Wrappers
  import opened AuditChain
  import opened Domain

  class Database {
    var assets: map<string, Asset>
    var offers: map<string, Offer>
    var reservations: map<string, Reservation>
    var dispatches: map<string, Dispatch>
    var readings: map<string, Reading>
    var settlements: map<string, Settlement>
    var idempotency: map<(Operation, string), IdempotencyRecord>
    var messages: map<string, Message>
    var log: seq<AuditEvent<Fact>>

    constructor ()
      ensures View() == EMPTY_DB
    {
      assets, offers, reservations, dispatches := map[], map[], map[], map[];
      readings, settlements, idempotency, messages, log := map[], map[], map[], map[], [];
    }

    function View(): Db
      reads this
    {
      Db(assets, offers, reservations, dispatches, readings, settlements, idempotency, messages, log)
    }

    /** Rolls a transaction back. */
    method Restore(db: Db)
      modifies this
      ensures View() == db
    {
      assets, offers, reservations, dispatches := db.assets, db.offers, db.reservations, db.dispatches;
      readings, settlements, idempotency, messages, log :=
          db.readings, db.settlements, db.idempotency, db.messages, db.log;
    }

    /** `append_event` */
    method AppendEvent(h: Hashes, fact: Fact, actorId: string, correlationId: string, stamp: Stamp)
      returns (event: AuditEvent<Fact>)
      modifies this`log
      ensures log == LogEvent(h, old(log), fact, actorId, correlationId, stamp)
      ensures event == log[|log| - 1] && event.eventHash == HeadHash(log)
    {
      var sequence, previousHash := 1, GENESIS_HASH;
      if |log| > 0 {
        var previous := log[|log| - 1];
        sequence, previousHash := previous.sequence + 1, previous.eventHash;
      }
      var material := Material(stamp.eventId, AggregateType(fact), AggregateId(fact), EventType(fact), actorId,
                               correlationId, fact, stamp.at, previousHash);
      event := AuditEvent(sequence, material, h.event(material));
      log := log + [event];
    }
  }

  /** What the caller of a transaction sees. */
  function Answer<T>(o: Outcome<T>): Result<T, Error> { if o.Done? then Success(o.value) else Failure(o.error) }
}
