/**
 * The event vocabulary of the reconnecting websocket: the five kinds a
 * listener can subscribe to, what a listener receives, and the record of
 * one listener invocation.
 */
module Events {
  /** The four kinds a transport fires natively, plus the synthetic `Retry`. */
  datatype EventKind = Open | Close | Error | Message | Retry

  /** The kinds for which the wrapper attaches a handler to every transport. */
  const NativeKinds: set<EventKind> := {Open, Close, Error, Message}

  /** A listener callback, known only by its identity (JavaScript compares functions by reference). */
  type ListenerId = nat

  /** Outgoing data handed to `send`. */
  type Data = string

  /**
   * What a listener receives: a native event object (opaque, known by an
   * identity), or the detail record of a synthetic retry event.
   */
  datatype Payload = NativeEvent(ev: nat) | RetryDetail(retries: nat, backoff: nat)

  /** One invocation of a listener callback with an event of the given kind. */
  datatype Call = Call(kind: EventKind, listener: ListenerId, payload: Payload)
}
