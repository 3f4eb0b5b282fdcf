/**
 Client-side runs of the connection manager, driving it the way a browser
 would: the socket's readyState is moved along by the environment and the
 manager's handlers are invoked for each event.
 */
module CourageScenarios {
  import opened Backoff
  import opened Courage

  /** The socket opens: onOpen fires once and the interval stays at 100 ms. */
  method OpenAfterConstruction() {
    var m := new ConnectionManager<string, string>("ws://rt.example.com:9090/");
    var state := m.ReadyState();
    assert state == Connecting;
    m.connection.readyState := Open;
    m.OnWebSocketOpen();
    assert m.log == [OnOpen];
    assert m.interval == 100;
    state := m.ReadyState();
    assert state == Open;
  }

  /** Attempts that never open are retried after 100, 200, then 400 ms. */
  method RepeatedFailures() {
    var m := new ConnectionManager<string, string>("ws://rt.example.com:9090/");
    m.connection.readyState := Closed;
    m.OnWebSocketClose();
    assert m.pendingRetry == Some(100);
    var state := m.ReadyState();
    assert state == Closed;
    m.RetryTimerFires();
    m.OnWebSocketClose();
    assert m.pendingRetry == Some(200);
    m.RetryTimerFires();
    m.OnWebSocketClose();
    assert m.pendingRetry == Some(400);
    assert m.interval == 800;
  }

  /** An open after three failures resets the next retry to 100 ms. */
  method ResetAfterFailures() {
    var m := new ConnectionManager<string, string>("ws://rt.example.com:9090/");
    m.OnWebSocketClose();
    m.RetryTimerFires();
    m.OnWebSocketClose();
    m.RetryTimerFires();
    m.OnWebSocketClose();
    m.RetryTimerFires();
    assert m.interval == 800;
    m.OnWebSocketOpen();
    assert m.interval == 100 && m.pendingRetry == None;
    m.OnWebSocketClose();
    assert m.pendingRetry == Some(100);
  }

  /** Messages reach onMessage in arrival order; an error changes no state. */
  method MessagesInOrder(m1: seq<bv8>, m2: seq<bv8>, err: string) {
    var m := new ConnectionManager<seq<bv8>, string>("ws://rt.example.com:9090/");
    m.OnWebSocketOpen();
    m.OnWebSocketMessage(m1);
    m.OnWebSocketMessage(m2);
    assert m.log == [OnOpen, OnMessage(m1), OnMessage(m2)];
    m.OnWebSocketError(err);
    assert m.log == [OnOpen, OnMessage(m1), OnMessage(m2), OnError(err)];
    assert m.interval == 100 && m.pendingRetry == None;
  }
}
