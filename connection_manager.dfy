/**
 The ConnectionManager of courage.js: it keeps one WebSocket to a service,
 passes the socket's open, message and error events on to its caller, and
 after every close schedules a reconnect with an exponentially growing,
 capped delay.
 */
module Courage {
  import opened Backoff

  datatype Option<T> = None | Some(value: T)

  /** The readyState values a WebSocket reports. */
  datatype WebSocketState = Connecting | Open | Closing | Closed

  /**
   The callbacks the manager invokes on its caller: onOpen(), onMessage(event)
   and onError(error). M and E are the types of the message and error events
   the socket delivers.
   */
  datatype Callback<M, E> = OnOpen | OnMessage(event: M) | OnError(error: E)

  /**
   The WebSocket transport, a foreign object: the manager only creates it and
   reads its readyState; the browser moves readyState along.
   */
  class Transport {
    const url: string
    var readyState: WebSocketState

    constructor (url: string)
      ensures this.url == url
      ensures readyState == Connecting
    {
      this.url := url;
      readyState := Connecting;
    }
  }

  class ConnectionManager<M, E> {
    const url: string
    var connection: Transport?
    /** The retry that is scheduled and has not fired, with its delay in ms. */
    var pendingRetry: Option<nat>
    /** The delay the next close will schedule its retry with, in ms. */
    var interval: nat

    /** Closes seen since construction or since the last open. */
    ghost var failures: nat
    /** Every callback invoked on the caller, oldest first. */
    ghost var log: seq<Callback<M, E>>

    /**
     The object invariant: a socket exists, and the interval is the one a run
     of `failures` consecutive closes leaves, hence within its bounds.
     */
    ghost predicate Valid()
      reads this
    {
      && connection != null
      && interval == IntervalAfter(failures)
      && InBounds(interval)
    }

    /**
     Creates the manager for the service at url and immediately makes the
     first connection attempt.
     */
    constructor (url: string)
      ensures Valid()
      ensures this.url == url
      ensures fresh(connection) && connection.url == url
      ensures connection.readyState == Connecting
      ensures interval == InitialInterval && pendingRetry == None
      ensures failures == 0 && log == []
    {
      this.url := url;
      connection := null;
      pendingRetry := None;
      interval := InitialInterval;
      failures := 0;
      log := [];
      new;
      Connect();
    }

    /** The readyState of the current socket. */
    method ReadyState() returns (state: WebSocketState)
      requires Valid()
      ensures state == connection.readyState
    {
      state := connection.readyState;
    }

    /**
     Opens a new socket to url and makes it the current one, dropping the
     previous one. Nothing else changes.
     */
    method Connect()
      modifies this`connection
      ensures fresh(connection) && connection.url == url
      ensures connection.readyState == Connecting
      ensures old(Valid()) ==> Valid()
    {
      connection := new Transport(url);
    }

    /**
     The scheduled retry fires: it is no longer pending, and a new connection
     attempt is made. The interval is left as the last close set it.
     */
    method RetryTimerFires()
      requires Valid() && pendingRetry.Some?
      modifies this`connection, this`pendingRetry
      ensures Valid()
      ensures pendingRetry == None
      ensures fresh(connection) && connection.url == url
      ensures connection.readyState == Connecting
      ensures interval == old(interval) && failures == old(failures) && log == old(log)
    {
      pendingRetry := None;
      Connect();
    }

    /**
     The socket opened: any pending retry is cancelled, the interval goes back
     to its initial value whatever it was, and onOpen is invoked once.
     */
    method OnWebSocketOpen()
      requires Valid()
      modifies this`pendingRetry, this`interval, this`failures, this`log
      ensures Valid()
      ensures pendingRetry == None
      ensures interval == InitialInterval && failures == 0
      ensures log == old(log) + [OnOpen]
      ensures connection == old(connection)
    {
      pendingRetry := None;
      interval := InitialInterval;
      failures := 0;
      log := log + [OnOpen];
    }

    /**
     The socket closed: a retry is scheduled with the current interval, and
     only then is the interval doubled and capped. The retry so scheduled is
     the one RetryDelay gives for this position in the run of closes.
     */
    method OnWebSocketClose()
      requires Valid()
      modifies this`pendingRetry, this`interval, this`failures
      ensures Valid()
      ensures pendingRetry == Some(old(interval))
      ensures interval == NextInterval(old(interval))
      ensures old(interval) <= interval
      ensures failures == old(failures) + 1
      ensures pendingRetry == Some(RetryDelay(failures))
      ensures connection == old(connection) && log == old(log)
    {
      pendingRetry := Some(interval);
      interval := interval * 2;
      interval := Min(interval, CeilingInterval);
      failures := failures + 1;
    }

    /** A message arrived: onMessage is invoked with it, unchanged. */
    method OnWebSocketMessage(event: M)
      requires Valid()
      modifies this`log
      ensures Valid()
      ensures log == old(log) + [OnMessage(event)]
      ensures interval == old(interval) && pendingRetry == old(pendingRetry)
      ensures connection == old(connection) && failures == old(failures)
    {
      log := log + [OnMessage(event)];
    }

    /** The socket reported an error: onError is invoked with it, unchanged. */
    method OnWebSocketError(error: E)
      requires Valid()
      modifies this`log
      ensures Valid()
      ensures log == old(log) + [OnError(error)]
      ensures interval == old(interval) && pendingRetry == old(pendingRetry)
      ensures connection == old(connection) && failures == old(failures)
    {
      log := log + [OnError(error)];
    }
  }
}
