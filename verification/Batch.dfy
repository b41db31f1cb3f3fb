/** One worker batch (`run_once`) with no other actor between its transactions. */
module Batch {
  import opened Signals
  import opened Domain
  import opened Outbox
  import opened Machine

  /** What a worker draws on: successive clock readings, claim tokens and event ids, the
      publisher's answer to its n-th call, and the text of a decoding exception. */
  datatype Env = Env(
    times: nat -> int,
    tokens: nat -> string,
    eventIds: nat -> string,
    publish: (nat, DispatchSignal, string) -> Response,
    refusal: DecodeError -> string)

  /** How much of it has been used. */
  datatype Cursor = Cursor(ticks: nat, claims: nat, calls: nat)

  datatype OutboxRunResult = OutboxRunResult(attempted: nat, published: nat, retried: nat, dead: nat)

  /** A batch under way; `claimed` lists what it claimed so far. */
  datatype Progress = Progress(db: Db, cursor: Cursor, result: OutboxRunResult, claimed: seq<string>)

  datatype RoundEnd = Idle | Handled | Raised(error: Error)

  function Begin(db: Db, cursor: Cursor): Progress { Progress(db, cursor, OutboxRunResult(0, 0, 0, 0), []) }

  /** Decoding and publishing inside the exception handler. */
  function Attempted(env: Env, calls: nat, claimed: ClaimedMessage): Response {
    match Decode(claimed.payload)
    case Failure(e) => Raise(env.refusal(e))
    case Success(signal) => env.publish(calls, signal, claimed.key)
  }

  function CallsAfter(calls: nat, claimed: ClaimedMessage): nat {
    if Decode(claimed.payload).Success? then calls + 1 else calls
  }

  /** The finalization and its effect on the counters. */
  function Conclude(h: Hashes, cfg: WorkerConfig, p: Progress, claimed: ClaimedMessage, response: Response,
                    stamp: Stamp)
    : (Progress, RoundEnd)
  {
    match response
    case Ack(reference) =>
      (match RecordSuccess(h, p.db, cfg, claimed, reference, stamp)
       case Failed(e) => (p, Raised(e))
       case Done(db, done) =>
         (p.(db := db, result := p.result.(published := p.result.published + if done then 1 else 0)), Handled))
    case Raise(error) =>
      var r := RecordFailure(h, p.db, cfg, claimed, error, stamp);
      (p.(db := r.db,
          result := if r.value then p.result.(dead := p.result.dead + 1)
              else p.result.(retried := p.result.retried + 1)),
       Handled)
  }

  /** One pass through the loop of `run_once`. */
  function Round(h: Hashes, cfg: WorkerConfig, env: Env, p: Progress): (Progress, RoundEnd) {
    var r := Claim(p.db, cfg, cfg.workerId + ":" + env.tokens(p.cursor.claims), env.times(p.cursor.ticks));
    if r.claimed.None? then (p.(cursor := p.cursor.(ticks := p.cursor.ticks + 1)), Idle)
    else
      var claimed := r.claimed.value;
      var response := Attempted(env, p.cursor.calls, claimed);
      var stamp := Stamp(env.eventIds(|r.db.log|), env.times(p.cursor.ticks + 1));
      Conclude(h, cfg,
               Progress(r.db, Cursor(p.cursor.ticks + 2, p.cursor.claims + 1, CallsAfter(p.cursor.calls, claimed)),
                        p.result.(attempted := p.result.attempted + 1), p.claimed + [claimed.id]),
               claimed, response, stamp)
  }

  /** `run_once` */
  function RunOnce(h: Hashes, cfg: WorkerConfig, env: Env, p: Progress, limit: nat): (Progress, RoundEnd)
    decreases limit
  {
    hide Round;
    if limit == 0 then (p, Handled)
    else
      var (next, end) := Round(h, cfg, env, p);
      if end.Handled? then RunOnce(h, cfg, env, next, limit - 1) else (next, end)
  }
}
