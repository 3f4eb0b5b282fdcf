# courage.js ConnectionManager, modelled in Dafny

This project models the reconnection state machine of the `ConnectionManager` in
courage.js. The manager holds a WebSocket to a service URL. It passes the socket's
open, message and error events to the caller's `onOpen`, `onMessage` and `onError`
callbacks. After every close it schedules a reconnect. The retry delay starts at
100 ms, doubles after each close, is capped at 300000 ms (five minutes), and returns
to 100 ms when a socket opens.

- `backoff.dfy` (module `Backoff`) holds the backoff policy as pure functions. It has
  the two constants, one backoff step (`NextInterval`), the interval after n
  consecutive closes (`IntervalAfter`) and the delay of the k-th retry of a run
  (`RetryDelay`). Lemmas prove the closed form `min(100 * 2^(k-1), 300000)`,
  monotonicity, and saturation from the 13th retry on.
- `connection_manager.dfy` (module `Courage`) holds the manager as a class. Its
  fields are `url`, `connection`, `pendingRetry` (the scheduled timer, as the delay
  it was scheduled with) and `interval`. Each event handler is a method. Two ghost
  fields support the specification. `failures` counts the closes since the last open.
  `log` records every callback invoked on the caller. The object invariant `Valid()`
  ties `interval` to `IntervalAfter(failures)`, so every handler keeps
  `100 <= interval <= 300000`.
- `scenarios.dfy` (module `CourageScenarios`) drives the manager as a browser would.
  It covers open after construction, three failed attempts (100, 200, 400 ms), a reset
  by an open after failures, and messages delivered in order.

`readyState` follows the code, not its doc comment. The comment at
connection_manager.js:56-57 says `readyState` returns CONNECTING when there is no
socket. The code at line 63 reads `connection.readyState` unconditionally. The
constructor always assigns `connection` through `connect` (line 51), and nothing sets
it back to null. So `Valid()` records `connection != null` and `ReadyState` returns
the current socket's state.

## Model

| member | source | states |
|---|---|---|
| `Backoff.NextInterval` | connection_manager.js:115-116 | one close step never exceeds the ceiling, exactly doubles while below it, never decreases an interval that is within the ceiling, and keeps the 100..300000 bounds |
| `Backoff.IntervalAfter` | connection_manager.js:16-17 | the interval after any number of consecutive closes from a reset lies within 100..300000 |
| `Backoff.RetryDelay` | connection_manager.js:112-116 | the k-th retry of a run of closes uses the interval left by the k-1 closes before it, within 100..300000 |
| `Backoff.IntervalAfterClosedForm` | connection_manager.js:115-116 | after n consecutive closes the interval is min(100 * 2^n, 300000) |
| `Backoff.RetryDelayClosedForm` | connection_manager.js:112-116 | the delay of the k-th consecutive retry is min(100 * 2^(k-1), 300000) |
| `Backoff.IntervalAfterMonotone` | connection_manager.js:115-116 | across consecutive closes the interval never decreases |
| `Backoff.IntervalAfterSaturates` | connection_manager.js:16-17 | the interval equals the 300000 ceiling exactly when at least 12 closes have been seen |
| `Backoff.RetryDelaySaturates` | connection_manager.js:112-116 | the 13th retry of a run and every later one wait 300000 ms, and no earlier one does |
| `Backoff.FirstRetryDelays` | connection_manager.js:112-116 | the first four retries of a run wait 100, 200, 400 and 800 ms |
| `Courage.Transport.constructor` | connection_manager.js:85 | a new socket is bound to the given URL and starts in the CONNECTING state |
| `Courage.ConnectionManager.constructor` | connection_manager.js:35-52 | construction stores the URL, sets the interval to 100 with no retry pending and no callback invoked, and makes one connect attempt, so a fresh socket exists |
| `Courage.ConnectionManager.ReadyState` | connection_manager.js:58-64 | returns the current socket's readyState; a socket always exists, so this never fails |
| `Courage.ConnectionManager.Connect` | connection_manager.js:80-91 | replaces the current socket with a fresh one to the same URL and changes nothing else |
| `Courage.ConnectionManager.RetryTimerFires` | connection_manager.js:112 | when the scheduled retry fires it is no longer pending and a fresh socket is opened; interval, failure count and callbacks are untouched |
| `Courage.ConnectionManager.OnWebSocketOpen` | connection_manager.js:94-103 | cancels any pending retry, resets the interval to exactly 100 whatever it was, ends the run of failures and invokes onOpen once; the socket is unchanged |
| `Courage.ConnectionManager.OnWebSocketClose` | connection_manager.js:107-117 | schedules a retry with the interval before doubling, then sets the interval to min(2 * old, 300000), which is never smaller; the delay is RetryDelay of the close's position in the run; bounds kept |
| `Courage.ConnectionManager.OnWebSocketMessage` | connection_manager.js:120-122 | invokes onMessage once with the event unchanged; interval, pending retry, socket and failure count stay the same |
| `Courage.ConnectionManager.OnWebSocketError` | connection_manager.js:125-127 | invokes onError once with the error unchanged; interval, pending retry, socket and failure count stay the same |

## Left out

- `send` (connection_manager.js:67-73) is left out. It forwards its data to the foreign socket and has no logic of its own.
- Creating the browser `WebSocket` is left out, along with setting `binaryType` and binding its `on*` handlers (connection_manager.js:85-90). The socket is a `Transport` object with a URL and a readyState. The browser, not the manager, moves that readyState along.
- Timer semantics are left out. `setTimeout` and `clearTimeout` (lines 99 and 112) become an optional pending delay. No wall-clock time is modelled. The timer's firing is the explicit method `RetryTimerFires`, which calls `Connect`.
- Courage.ConnectionManager.OnWebSocketClose: the source overwrites `timer` without clearing a timer that may still be pending (line 112). The model keeps only the newest pending retry. An orphaned earlier timer, which could fire a second `connect`, is not represented. Under the socket's contract of one close per socket, no such timer exists.
- The caller-assignable callback fields (connection_manager.js:38-40) are modelled only by recording each invocation in the ghost `log`. What a caller's callback does is not modelled.
- The namespace and IIFE boilerplate (connection_manager.js:9-14, 129-131) is left out.
- JavaScript numbers are doubles. Every interval value stays at most 600000, where doubles are exact, so the model uses unbounded naturals.
