/**
 * The reconnecting `Websocket` wrapper of lib/websocket.js: one current
 * transport handle, replaced wholesale on every reconnect; an optional
 * outbound buffer flushed on open; an optional backoff feeding a list of
 * pending retry timers; and per-kind listener lists with one-shot entries.
 *
 * The browser's WebSocket is the class Transport below, reduced to what the
 * wrapper observes and changes. Native events and timer firings are methods
 * the environment calls: OnOpen, OnClose, OnError, OnMessage and FireTimer.
 */
module Websockets {
  import opened Wrappers
  import opened Events
  import opened Listeners

  /** The arguments of one close() request made on a transport. */
  datatype CloseRequest = CloseRequest(code: Option<nat>, reason: Option<string>)

  /**
   * A browser WebSocket as the wrapper sees it: whether its readyState is
   * OPEN, which of the wrapper's four handlers are attached, the close
   * requests made on it and the data sent through it.
   */
  class Transport {
    const url: string
    const protocols: seq<string>
    var ready: bool
    var handlers: set<EventKind>
    var closeRequests: seq<CloseRequest>
    var sent: seq<Data>

    /** `new WebSocket(url, protocols)`: a connecting socket, not yet OPEN. */
    constructor (url: string, protocols: seq<string>)
      ensures this.url == url && this.protocols == protocols
      ensures !ready && handlers == {} && closeRequests == [] && sent == []
    {
      this.url := url;
      this.protocols := protocols;
      ready := false;
      handlers := {};
      closeRequests := [];
      sent := [];
    }

    /** Attaches the wrapper's handler for `kind`. */
    method AddEventListener(kind: EventKind)
      modifies this`handlers
      ensures handlers == old(handlers) + {kind}
    {
      handlers := handlers + {kind};
    }

    /** Detaches the wrapper's handler for `kind`. */
    method RemoveEventListener(kind: EventKind)
      modifies this`handlers
      ensures handlers == old(handlers) - {kind}
    {
      handlers := handlers - {kind};
    }

    /** Transmits `data`. */
    method Send(data: Data)
      modifies this`sent
      ensures sent == old(sent) + [data]
    {
      sent := sent + [data];
    }

    /** Requests closure; the readyState leaves OPEN at once (it becomes CLOSING). */
    method Close(code: Option<nat>, reason: Option<string>)
      modifies this`closeRequests, this`ready
      ensures closeRequests == old(closeRequests) + [CloseRequest(code, reason)]
      ensures !ready
    {
      closeRequests := closeRequests + [CloseRequest(code, reason)];
      ready := false;
    }

    /** The browser's side of a native open: the readyState becomes OPEN. */
    method Opened()
      modifies this`ready
      ensures ready
    {
      ready := true;
    }

    /** The browser's side of a native close: the readyState becomes CLOSED. */
    method Closed()
      modifies this`ready
      ensures !ready
    {
      ready := false;
    }
  }

  class Websocket {
    const url: string
    const protocols: seq<string>
    /** Whether a buffer collaborator was supplied; its contents are `buffer`. */
    const hasBuffer: bool
    /**
     * The backoff collaborator, if any: the delay `next()` returns after `n`
     * earlier calls since the last `reset()`. `backoffStep` counts those calls.
     */
    const backoff: Option<nat -> nat>

    var websocket: Transport?
    var closedByUser: bool
    var retries: nat
    var listeners: map<EventKind, seq<Entry>>
    var buffer: seq<Data>
    var backoffStep: nat
    /** The delays of the retry timers scheduled and not yet fired. */
    var timers: seq<nat>
    /** Every listener invocation so far, in order. */
    var calls: seq<Call>
    /** The handles this wrapper has superseded. */
    ghost var retired: set<Transport>

    /**
     * The invariant that holds between calls, except that right at
     * construction there is no handle yet: every kind has a list, an absent
     * buffer holds nothing, the current handle has exactly the four handlers
     * attached, and every superseded handle has none and was asked to close.
     */
    ghost predicate Inv()
      reads this, websocket, retired
    {
      (forall k: EventKind :: k in listeners) &&
      (!hasBuffer ==> buffer == []) &&
      (websocket != null ==> websocket.handlers == NativeKinds && websocket !in retired) &&
      (forall t :: t in retired ==> t.handlers == {} && t.closeRequests != [])
    }

    /** The object invariant: Inv with a current handle. */
    ghost predicate Valid()
      reads this, websocket, retired
    {
      Inv() && websocket != null
    }

    /**
     * The retry count is 0 while the current handle is OPEN. Every public
     * method and event handler ends with it in force. It lapses in two places:
     * inside a timer firing, between the increment and the replacement of the
     * handle, and inside the open handling, between the handle becoming OPEN
     * and the reset of the count.
     */
    ghost predicate RetriesReset()
      reads this, websocket
    {
      websocket != null && websocket.ready ==> retries == 0
    }

    /** Creates the wrapper with empty listener lists and opens the first transport. */
    constructor (url: string, protocols: seq<string>, buffer: Option<seq<Data>>, backoff: Option<nat -> nat>)
      ensures Valid() && RetriesReset() && fresh(websocket) && retired == {}
      ensures this.url == url && this.protocols == protocols && this.backoff == backoff
      ensures hasBuffer == buffer.Some? && this.buffer == (if buffer.Some? then buffer.value else [])
      ensures !closedByUser && retries == 0 && backoffStep == 0 && timers == [] && calls == []
      ensures forall k: EventKind :: listeners[k] == []
      ensures websocket.url == url && websocket.protocols == protocols
      ensures websocket.handlers == NativeKinds && !websocket.ready
      ensures websocket.sent == [] && websocket.closeRequests == []
    {
      this.url := url;
      this.protocols := protocols;
      hasBuffer := buffer.Some?;
      this.buffer := if buffer.Some? then buffer.value else [];
      this.backoff := backoff;
      listeners := map[EventKind.Open := [], EventKind.Close := [], EventKind.Error := [], EventKind.Message := [], EventKind.Retry := []];
      closedByUser := false;
      retries := 0;
      backoffStep := 0;
      timers := [];
      calls := [];
      websocket := null;
      retired := {};
      new;
      forall k: EventKind ensures k in listeners {
        match k
        case Open =>
        case Close =>
        case Error =>
        case Message =>
        case Retry =>
      }
      TryConnect();
    }

    /** The `underlyingWebsocket` getter: the live, non-superseded handle. */
    function UnderlyingWebsocket(): (t: Transport)
      requires Valid()
      reads this, websocket, retired
      ensures t == websocket && t !in retired && t.handlers == NativeKinds
    {
      websocket
    }

    /**
     * `send`: dropped after a user close; buffered (or dropped without a
     * buffer) while the transport is not OPEN; otherwise transmitted.
     */
    method Send(data: Data)
      requires Valid()
      modifies this`buffer, websocket`sent
      ensures Valid()
      ensures old(closedByUser) ==> buffer == old(buffer) && websocket.sent == old(websocket.sent)
      ensures !closedByUser && !websocket.ready ==>
        buffer == old(buffer) + (if hasBuffer then [data] else []) && websocket.sent == old(websocket.sent)
      ensures !closedByUser && websocket.ready ==>
        websocket.sent == old(websocket.sent) + [data] && buffer == old(buffer)
      ensures buffer == old(buffer) || websocket.sent == old(websocket.sent)
      ensures RetriesReset() == old(RetriesReset())
    {
      if closedByUser {
        return;
      }
      if websocket == null || !websocket.ready {
        if hasBuffer {
          buffer := buffer + [data];
        }
      } else {
        websocket.Send(data);
      }
    }

    /**
     * `close`: marks the connection user-closed and requests closure of the
     * current handle. Pending retry timers and the buffer are left in place.
     */
    method Close(code: Option<nat>, reason: Option<string>)
      requires Valid()
      modifies this`closedByUser, websocket`closeRequests, websocket`ready
      ensures Valid() && closedByUser
      ensures websocket.closeRequests == old(websocket.closeRequests) + [CloseRequest(code, reason)]
      ensures !websocket.ready && websocket.sent == old(websocket.sent)
      ensures timers == old(timers) && buffer == old(buffer)
      ensures RetriesReset()
    {
      closedByUser := true;
      if websocket != null {
        websocket.Close(code, reason);
      }
    }

    /**
     * `open`: clears the user-closed mark and always replaces the transport.
     * Pending retry timers are left in place.
     */
    method Open()
      requires Valid()
      modifies this`closedByUser, this`websocket, this`retired, websocket
      ensures Valid() && !closedByUser && fresh(websocket)
      ensures websocket.url == url && websocket.protocols == protocols
      ensures websocket.handlers == NativeKinds && !websocket.ready
      ensures websocket.sent == [] && websocket.closeRequests == []
      ensures old(websocket).handlers == {} && !old(websocket).ready
      ensures old(websocket).closeRequests == old(websocket.closeRequests) + [CloseRequest(None, None)]
      ensures old(websocket).sent == old(websocket.sent)
      ensures retired == old(retired) + {old(websocket)}
      ensures timers == old(timers) && buffer == old(buffer)
      ensures RetriesReset()
    {
      closedByUser := false;
      TryConnect();
    }

    /** `addEventListener`: appends one entry to the end of that kind's list only. */
    method AddEventListener(kind: EventKind, listener: ListenerId, options: ListenerOptions?)
      requires Valid()
      modifies this`listeners
      ensures Valid()
      ensures listeners == old(listeners)[kind := old(listeners[kind]) + [Entry(listener, options)]]
      ensures RetriesReset() == old(RetriesReset())
    {
      listeners := listeners[kind := listeners[kind] + [Entry(listener, options)]];
    }

    /** `removeEventListener`: filters that kind's list by Keep; other kinds are untouched. */
    method RemoveEventListener(kind: EventKind, listener: ListenerId, options: ListenerOptions?)
      requires Valid()
      modifies this`listeners
      ensures Valid()
      ensures listeners == old(listeners)[kind := Removed(old(listeners[kind]), listener, options)]
      ensures RetriesReset() == old(RetriesReset())
    {
      listeners := listeners[kind := Removed(listeners[kind], listener, options)];
    }

    /**
     * `dispatchEvent`: invokes every entry of the list as it stood at the
     * start, in order, collecting the once-entries; then removes each of
     * those through removeEventListener.
     */
    method DispatchEvent(kind: EventKind, payload: Payload)
      requires Valid()
      modifies this`listeners, this`calls
      ensures Valid()
      ensures calls == old(calls) + Invocations(kind, old(listeners[kind]), payload)
      ensures listeners == old(listeners)[kind := AfterDispatch(old(listeners[kind]))]
      ensures RetriesReset() == old(RetriesReset())
    {
      var entries := listeners[kind];
      var onceListeners: seq<Entry> := [];
      var i := 0;
      while i < |entries|
        invariant 0 <= i <= |entries|
        invariant listeners == old(listeners)
        invariant calls == old(calls) + Invocations(kind, entries[..i], payload)
        invariant onceListeners == OnceEntries(entries[..i])
      {
        assert entries[..i + 1][..i] == entries[..i];
        calls := calls + [Call(kind, entries[i].listener, payload)];
        if IsOnce(entries[i]) {
          onceListeners := onceListeners + [entries[i]];
        }
        i := i + 1;
      }
      assert entries[..i] == entries;
      RemoveOnceListeners(kind, onceListeners);
    }

    /** Calls removeEventListener with each of `removals`, in order, on the list of `kind`. */
    method RemoveOnceListeners(kind: EventKind, removals: seq<Entry>)
      requires Valid()
      modifies this`listeners
      ensures Valid()
      ensures listeners == old(listeners)[kind := RemoveEach(old(listeners[kind]), removals)]
    {
      var j := 0;
      while j < |removals|
        invariant 0 <= j <= |removals|
        invariant Valid()
        invariant listeners == old(listeners)[kind := RemoveEach(old(listeners[kind]), removals[..j])]
      {
        assert removals[..j + 1][..j] == removals[..j];
        RemoveEventListener(kind, removals[j].listener, removals[j].options);
        j := j + 1;
      }
      assert removals[..j] == removals;
    }

    /**
     * `tryConnect`: detaches the four handlers from the current handle and
     * requests its closure, if there is one; then creates a new handle,
     * attaches the four handlers and makes it current.
     */
    method TryConnect()
      requires Inv()
      modifies this`websocket, this`retired, websocket
      ensures Valid() && fresh(websocket)
      ensures websocket.url == url && websocket.protocols == protocols
      ensures websocket.handlers == NativeKinds && !websocket.ready
      ensures websocket.sent == [] && websocket.closeRequests == []
      ensures old(websocket) != null ==>
        old(websocket).handlers == {} && !old(websocket).ready &&
        old(websocket).closeRequests == old(websocket.closeRequests) + [CloseRequest(None, None)] &&
        old(websocket).sent == old(websocket.sent)
      ensures retired == old(retired) + (if old(websocket) == null then {} else {old(websocket)})
    {
      if websocket != null {
        Retire();
      }
      var t := new Transport(url, protocols);
      t.AddEventListener(EventKind.Open);
      t.AddEventListener(EventKind.Close);
      t.AddEventListener(EventKind.Error);
      t.AddEventListener(EventKind.Message);
      websocket := t;
    }

    /** The first half of tryConnect: the current handle loses its four handlers and is asked to close. */
    method Retire()
      requires Inv() && websocket != null
      modifies this`retired, websocket
      ensures websocket.handlers == {} && !websocket.ready
      ensures websocket.closeRequests == old(websocket.closeRequests) + [CloseRequest(None, None)]
      ensures websocket.sent == old(websocket.sent)
      ensures retired == old(retired) + {websocket}
      ensures forall t :: t in retired ==> t.handlers == {} && t.closeRequests != []
    {
      websocket.RemoveEventListener(EventKind.Open);
      websocket.RemoveEventListener(EventKind.Close);
      websocket.RemoveEventListener(EventKind.Error);
      websocket.RemoveEventListener(EventKind.Message);
      websocket.Close(None, None);
      retired := retired + {websocket};
    }

    /**
     * The open-handler's flush: every buffered item goes through Send in
     * insertion order, then the buffer is cleared.
     */
    method FlushBuffer()
      requires Valid()
      modifies this`buffer, websocket`sent
      ensures Valid() && buffer == []
      ensures websocket.sent == old(websocket.sent) + (if !closedByUser && websocket.ready then old(buffer) else [])
    {
      if hasBuffer {
        var items := buffer;
        var i := 0;
        while i < |items|
          invariant 0 <= i <= |items|
          invariant Valid()
          invariant websocket.sent == old(websocket.sent) + (if !closedByUser && websocket.ready then items[..i] else [])
          invariant buffer == items + (if !closedByUser && !websocket.ready then items[..i] else [])
        {
          assert items[..i + 1] == items[..i] + [items[i]];
          Send(items[i]);
          i := i + 1;
        }
        assert items[..i] == items;
        buffer := [];
      }
    }

    /**
     * `reconnect`: without a backoff nothing happens; otherwise one delay is
     * drawn with `next()` and one timer with that delay is scheduled.
     */
    method Reconnect()
      requires Valid()
      modifies this`backoffStep, this`timers
      ensures Valid()
      ensures backoff.None? ==> backoffStep == old(backoffStep) && timers == old(timers)
      ensures backoff.Some? ==>
        backoffStep == old(backoffStep) + 1 && timers == old(timers) + [backoff.value(old(backoffStep))]
    {
      if backoff.None? {
        return;
      }
      var delay := backoff.value(backoffStep);
      backoffStep := backoffStep + 1;
      timers := timers + [delay];
    }

    /**
     * `handleEvent`: on close, reconnect unless the user closed; on open,
     * reset the retry count and the backoff and flush the buffer; in every
     * case, dispatch the event to the listeners afterwards.
     */
    method HandleEvent(kind: EventKind, payload: Payload)
      requires Valid()
      modifies this`retries, this`backoffStep, this`timers, this`buffer, this`listeners, this`calls, websocket`sent
      ensures Valid()
      ensures calls == old(calls) + Invocations(kind, old(listeners[kind]), payload)
      ensures listeners == old(listeners)[kind := AfterDispatch(old(listeners[kind]))]
      ensures kind == EventKind.Open ==>
        retries == 0 && (backoff.Some? ==> backoffStep == 0) && (backoff.None? ==> backoffStep == old(backoffStep)) &&
        buffer == [] && timers == old(timers) &&
        websocket.sent == old(websocket.sent) + (if !closedByUser && websocket.ready then old(buffer) else [])
      ensures kind == EventKind.Close ==>
        retries == old(retries) && buffer == old(buffer) && websocket.sent == old(websocket.sent) &&
        if !closedByUser && backoff.Some? then
          backoffStep == old(backoffStep) + 1 && timers == old(timers) + [backoff.value(old(backoffStep))]
        else
          backoffStep == old(backoffStep) && timers == old(timers)
      ensures kind != EventKind.Open && kind != EventKind.Close ==>
        retries == old(retries) && backoffStep == old(backoffStep) && timers == old(timers) &&
        buffer == old(buffer) && websocket.sent == old(websocket.sent)
    {
      match kind {
        case Close =>
          if !closedByUser {
            Reconnect();
          }
        case Open =>
          retries := 0;
          if backoff.Some? {
            backoffStep := 0;
          }
          FlushBuffer();
        case _ =>
      }
      DispatchEvent(kind, payload);
    }

    /** The current handle fires `open`: it is now OPEN, and the wrapper handles the event. */
    method OnOpen(ev: nat)
      requires Valid()
      modifies this`retries, this`backoffStep, this`timers, this`buffer, this`listeners, this`calls, websocket`sent, websocket`ready
      ensures Valid() && websocket.ready
      ensures retries == 0 && (backoff.Some? ==> backoffStep == 0) && buffer == [] && timers == old(timers)
      ensures websocket.sent == old(websocket.sent) + (if !closedByUser then old(buffer) else [])
      ensures calls == old(calls) + Invocations(EventKind.Open, old(listeners[EventKind.Open]), NativeEvent(ev))
      ensures listeners == old(listeners)[EventKind.Open := AfterDispatch(old(listeners[EventKind.Open]))]
      ensures RetriesReset()
    {
      websocket.Opened();
      HandleEvent(EventKind.Open, NativeEvent(ev));
    }

    /**
     * The current handle fires `close`: it is no longer OPEN; unless the user
     * closed, a retry is scheduled when there is a backoff; `close` is
     * dispatched in all cases.
     */
    method OnClose(ev: nat)
      requires Valid()
      modifies this`retries, this`backoffStep, this`timers, this`buffer, this`listeners, this`calls, websocket`sent, websocket`ready
      ensures Valid() && !websocket.ready
      ensures retries == old(retries) && buffer == old(buffer) && websocket.sent == old(websocket.sent)
      ensures !closedByUser && backoff.Some? ==>
        backoffStep == old(backoffStep) + 1 && timers == old(timers) + [backoff.value(old(backoffStep))]
      ensures closedByUser || backoff.None? ==> backoffStep == old(backoffStep) && timers == old(timers)
      ensures calls == old(calls) + Invocations(EventKind.Close, old(listeners[EventKind.Close]), NativeEvent(ev))
      ensures listeners == old(listeners)[EventKind.Close := AfterDispatch(old(listeners[EventKind.Close]))]
      ensures RetriesReset()
    {
      websocket.Closed();
      HandleEvent(EventKind.Close, NativeEvent(ev));
    }

    /** The current handle fires `error`: forwarded to the listeners, nothing else changes. */
    method OnError(ev: nat)
      requires Valid()
      modifies this`retries, this`backoffStep, this`timers, this`buffer, this`listeners, this`calls, websocket`sent
      ensures Valid()
      ensures retries == old(retries) && backoffStep == old(backoffStep) && timers == old(timers)
      ensures buffer == old(buffer) && websocket.sent == old(websocket.sent)
      ensures calls == old(calls) + Invocations(EventKind.Error, old(listeners[EventKind.Error]), NativeEvent(ev))
      ensures listeners == old(listeners)[EventKind.Error := AfterDispatch(old(listeners[EventKind.Error]))]
      ensures RetriesReset() == old(RetriesReset())
    {
      HandleEvent(EventKind.Error, NativeEvent(ev));
    }

    /** The current handle fires `message`: forwarded to the listeners, nothing else changes. */
    method OnMessage(ev: nat)
      requires Valid()
      modifies this`retries, this`backoffStep, this`timers, this`buffer, this`listeners, this`calls, websocket`sent
      ensures Valid()
      ensures retries == old(retries) && backoffStep == old(backoffStep) && timers == old(timers)
      ensures buffer == old(buffer) && websocket.sent == old(websocket.sent)
      ensures calls == old(calls) + Invocations(EventKind.Message, old(listeners[EventKind.Message]), NativeEvent(ev))
      ensures listeners == old(listeners)[EventKind.Message := AfterDispatch(old(listeners[EventKind.Message]))]
      ensures RetriesReset() == old(RetriesReset())
    {
      HandleEvent(EventKind.Message, NativeEvent(ev));
    }

    /**
     * The pending timer at index `i` fires: the retry count goes up by one, a
     * `retry` event carrying the new count and the timer's delay is
     * dispatched, and then the transport is replaced. The timer does not look
     * at `closedByUser`.
     */
    method FireTimer(i: nat)
      requires Valid() && i < |timers|
      modifies this`retries, this`timers, this`listeners, this`calls, this`websocket, this`retired, websocket
      ensures Valid() && fresh(websocket)
      ensures retries == old(retries) + 1
      ensures timers == old(timers[..i] + timers[i + 1..])
      ensures calls == old(calls) + Invocations(EventKind.Retry, old(listeners[EventKind.Retry]), RetryDetail(old(retries) + 1, old(timers[i])))
      ensures listeners == old(listeners)[EventKind.Retry := AfterDispatch(old(listeners[EventKind.Retry]))]
      ensures websocket.url == url && websocket.protocols == protocols
      ensures websocket.handlers == NativeKinds && !websocket.ready
      ensures websocket.sent == [] && websocket.closeRequests == []
      ensures old(websocket).handlers == {} && !old(websocket).ready
      ensures old(websocket).closeRequests == old(websocket.closeRequests) + [CloseRequest(None, None)]
      ensures old(websocket).sent == old(websocket.sent)
      ensures retired == old(retired) + {old(websocket)}
      ensures RetriesReset()
    {
      var delay := timers[i];
      timers := timers[..i] + timers[i + 1..];
      retries := retries + 1;
      DispatchEvent(EventKind.Retry, RetryDetail(retries, delay));
      TryConnect();
    }
  }
}
