/** Publishers: the no-op default and the deterministic fault injector. */
module Publishers {
  import opened Text
  import opened Signals
  import opened Machine

  /** A publisher by its answers: to its n-th call, counted from one, with a signal and a
      key. A destination with state of its own is one whose answers depend on n. */
  type Publisher = (nat, DispatchSignal, string) -> Response

  /** `NoopDispatchPublisher.publish`, the same at every call. */
  function Noop(call: nat, signal: DispatchSignal, key: string): Response {
    if Blank(key) then Raise("ValueError: Publisher idempotency key cannot be blank.")
    else Ack("noop:" + signal.dispatchId)
  }

  /** The answer of `FaultInjectingDispatchPublisher` to its call number `attempt`,
      counted from one: the delegate is called from the first success on. */
  function Injected(failures: nat, attempt: nat, delegate: Publisher, signal: DispatchSignal, key: string): Response {
    if attempt <= failures then Raise("RuntimeError: Injected outbound failure #" + NatText(attempt) + ".")
    else delegate(attempt - failures, signal, key)
  }

  /** The adapter fails the first N publishes for recovery testing; with N = 0 it is its
      delegate. */
  class FaultInjectingDispatchPublisher {
    const delegate: Publisher
    const failuresBeforeSuccess: nat
    var attempts: nat

    constructor (delegate: Publisher, failuresBeforeSuccess: nat)
      ensures this.delegate == delegate && this.failuresBeforeSuccess == failuresBeforeSuccess && attempts == 0
    {
      this.delegate := delegate;
      this.failuresBeforeSuccess := failuresBeforeSuccess;
      this.attempts := 0;
    }

    method Publish(signal: DispatchSignal, key: string) returns (response: Response)
      modifies this
      ensures attempts == old(attempts) + 1
      ensures response == Injected(failuresBeforeSuccess, attempts, delegate, signal, key)
    {
      attempts := attempts + 1;
      if attempts <= failuresBeforeSuccess {
        return Raise("RuntimeError: Injected outbound failure #" + NatText(attempts) + ".");
      }
      response := delegate(attempts - failuresBeforeSuccess, signal, key);
    }
  }
}
