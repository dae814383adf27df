/**
 * Client code that drives a Websocket through concrete event sequences and
 * states the outcome each time. It relies only on the contracts of the
 * Websocket methods, so it shows those contracts pin the behaviour down.
 */
module Scenarios {
  import opened Wrappers
  import opened Events
  import opened Listeners
  import opened Websockets

  const Url := "wss://example.test/feed"

  /** Without a backoff, a native close is terminal: no timer, no new transport, only `close` is dispatched. */
  method NoBackoffCloseIsTerminal()
  {
    var ws := new Websocket(Url, [], None, None);
    ws.AddEventListener(EventKind.Retry, 1, null);
    ws.AddEventListener(EventKind.Close, 2, null);
    var first := ws.websocket;
    ws.OnClose(0);
    assert ws.timers == [] && ws.websocket == first;
    assert [Entry(2, null)][..0] == [];
    assert ws.calls == [Call(EventKind.Close, 2, NativeEvent(0))];
  }

  /**
   * With delays 100 then 200, two failed connection attempts produce retry
   * events numbered 1 and 2 with those delays; a later open resets the count
   * and the backoff.
   */
  method BackoffRetriesThenReset()
  {
    var ws := new Websocket(Url, [], None, Some((n: nat) => if n == 0 then 100 else 200));
    ws.AddEventListener(EventKind.Retry, 7, null);
    var retryList := [Entry(7, null)];
    assert ws.listeners[EventKind.Retry] == retryList;
    assert retryList[..0] == [];

    ws.OnClose(0);
    assert ws.timers == [100];
    ws.FireTimer(0);
    assert ws.retries == 1;
    assert ws.calls == [Call(EventKind.Retry, 7, RetryDetail(1, 100))];
    DispatchWithoutOnceKeepsAll(retryList);
    assert ws.listeners[EventKind.Retry] == retryList;

    ws.OnClose(1);
    assert ws.timers == [200];
    ws.FireTimer(0);
    assert ws.calls == [Call(EventKind.Retry, 7, RetryDetail(1, 100)), Call(EventKind.Retry, 7, RetryDetail(2, 200))];

    ws.OnOpen(2);
    assert ws.retries == 0 && ws.backoffStep == 0 && ws.timers == [];
  }

  /** Data sent while connecting is buffered in call order and reaches the transport in that order on open. */
  method BufferedSendsFlushInOrder()
  {
    var ws := new Websocket(Url, [], Some([]), None);
    var t := ws.websocket;
    ws.Send("a");
    ws.Send("b");
    assert ws.buffer == ["a", "b"] && t.sent == [];
    ws.OnOpen(0);
    assert t.sent == ["a", "b"] && ws.buffer == [];
    ws.Send("c");
    assert t.sent == ["a", "b", "c"];
  }

  /** After close(), send reaches neither the buffer nor the transport. */
  method SendAfterCloseIsDropped()
  {
    var ws := new Websocket(Url, [], Some(["queued"]), None);
    ws.Close(Some(1000), Some("bye"));
    assert ws.websocket.closeRequests == [CloseRequest(Some(1000), Some("bye"))];
    ws.Send("late");
    assert ws.buffer == ["queued"] && ws.websocket.sent == [];
  }

  /**
   * close() does not cancel a pending retry timer: a close event after it
   * schedules nothing new, but the earlier timer still fires, counts a retry
   * and replaces the transport although the connection is user-closed.
   */
  method PendingTimerSurvivesClose()
  {
    var ws := new Websocket(Url, [], None, Some((n: nat) => 50));
    ws.OnClose(0);
    assert ws.timers == [50];
    ws.Close(None, None);
    ws.OnClose(1);
    assert ws.timers == [50];
    var closed := ws.websocket;
    ws.FireTimer(0);
    assert ws.closedByUser && ws.retries == 1 && ws.timers == [];
    assert ws.websocket != closed && closed.handlers == {};
  }

  /** open() replaces the transport even while one is connected, and detaches the old one. */
  method OpenReplacesTransport()
  {
    var ws := new Websocket(Url, [], None, None);
    ws.OnOpen(0);
    var live := ws.websocket;
    assert live.ready;
    ws.Open();
    assert ws.websocket != live && !ws.websocket.ready && ws.websocket.handlers == NativeKinds;
    assert live.handlers == {} && live.closeRequests == [CloseRequest(None, None)];
  }

  /** Dispatching a once-entry followed by a plain entry of another listener leaves only the plain entry. */
  lemma OncePlainAfterDispatch(first: ListenerId, once: ListenerOptions, second: ListenerId)
    requires once.once && first != second
    ensures AfterDispatch([Entry(first, once), Entry(second, null)]) == [Entry(second, null)]
  {
    var both := [Entry(first, once), Entry(second, null)];
    assert both[..1] == [Entry(first, once)] && [Entry(first, once)][..0] == [];
    assert OnceEntries(both) == [Entry(first, once)];
    assert RemoveEach(both, [Entry(first, once)]) == Removed(both, first, once);
    assert both[1..] == [Entry(second, null)] && [Entry(second, null)][1..] == [];
    assert Removed(both, first, once) == Removed([Entry(second, null)], first, once) == [Entry(second, null)];
  }

  /** A once-listener runs for the first dispatch only; a plain listener beside it keeps running. */
  method OnceListenerRunsOnce()
  {
    var ws := new Websocket(Url, [], None, None);
    var once := new ListenerOptions(true);
    ws.AddEventListener(EventKind.Message, 3, once);
    ws.AddEventListener(EventKind.Message, 4, null);
    var both := [Entry(3, once), Entry(4, null)];
    assert ws.listeners[EventKind.Message] == both;
    InvocationsAt(EventKind.Message, both, NativeEvent(0));
    ws.OnMessage(0);
    assert ws.calls == [Call(EventKind.Message, 3, NativeEvent(0)), Call(EventKind.Message, 4, NativeEvent(0))];
    OncePlainAfterDispatch(3, once, 4);
    assert ws.listeners[EventKind.Message] == [Entry(4, null)];
    assert [Entry(4, null)][..0] == [];
    ws.OnMessage(1);
    assert ws.calls == [Call(EventKind.Message, 3, NativeEvent(0)), Call(EventKind.Message, 4, NativeEvent(0)),
                        Call(EventKind.Message, 4, NativeEvent(1))];
  }
}
