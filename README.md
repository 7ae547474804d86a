# request-stats: the stats emitter

A model of the stats-recording core of `request-stats`, a Node.js library that
measures every HTTP request a server handles. For each request it starts a
clock and subscribes an optional listener. It wires one fire-once completion
action to the response's `finish` and `close` signals. When the first of those
signals arrives, the action does three things:

- it computes the bytes this request read and wrote as the connection's
  cumulative counters minus the checkpoint left by the previous request on the
  same keep-alive connection;
- it moves that checkpoint to the counters;
- it emits one `stats` record `{ok, time, req{bytes, headers, method, path}, res{bytes, headers, status}}`.

The modules:

- `Wrappers`: the `Option` type used for the connection's checkpoint and for a
  completion that may do nothing.
- `ByteAccounting`: the checkpoint arithmetic as pure functions.
  - `DeltaSince` is the reference definition of what one completion reports.
  - `Deltas` is what a whole run of completions on one connection reports.
  - `Total` sums deltas.
  - The lemmas prove three things: each request reports the difference of
    consecutive counter readings; the reports telescope to the connection's
    counters; none is negative while the counters only grow.
- `CompletionGate`: the `once` wrapper as a reference function. `Admitted` is
  the list of signals that get through. The lemmas prove that the first signal,
  and only that one, gets through.
- `RequestStats`: the emitter itself, with classes for the state the JavaScript
  code mutates.
  - `Connection` has the transport's counters and the `_requestStats`
    checkpoint, plus a ghost history of the counters at every completion.
  - `Response` has the status code and headers.
  - `StatsEmitter` has its `stats` listeners and the records it has emitted.
  - `HttpServer` has its `request` handlers.
  - `Recorder` is one call of `_request`: the start time, and the `fired` flag
    of the `once` wrapper.
  - `Recorder.Complete` is proved against `ByteAccounting` and `CompletionGate`.
- `Scenarios`: the library's end-to-end expectations, written as client
  programs over the emitter and proved from its contracts alone. They cover a
  finished request, a request destroyed before the response, and two requests
  over one reused connection.

## Model

| member | source | states |
|---|---|---|
| ByteAccounting.DeltaAt | lib/stats_emitter.js:26-34 | The i-th request on a connection reports its counter reading minus the reading of request i-1. The first request reports its full reading. |
| ByteAccounting.Telescoping | lib/stats_emitter.js:26-34 | No double counting and no loss: the reports of all completed requests on a connection sum to the counters at the last completion, and to 0 when none has completed. |
| ByteAccounting.MonotoneSnoc | lib/stats_emitter.js:31-34 | Moving the checkpoint to counters that are not below the last checkpoint keeps the connection's history of checkpoints non-decreasing. |
| ByteAccounting.DeltasNonNegative | lib/stats_emitter.js:28-29 | When the counters never decrease, no request reports a negative byte count. |
| CompletionGate.Admitted | lib/stats_emitter.js:25 | The `once` wrapper never lets through more signals than it receives. |
| CompletionGate.FiredAdmitsNothing | lib/stats_emitter.js:25 | Once the wrapper has fired, no later signal gets through. |
| CompletionGate.FirstSignalOnly | lib/stats_emitter.js:53-54 | Of any non-empty series of `finish`/`close` signals, exactly the first gets through, with its own `ok` value. |
| CompletionGate.AtMostOnce | lib/stats_emitter.js:25 | At most one signal gets through from any starting state, and none gets through if the wrapper has already fired. |
| RequestStats.Connection.Checkpoint | lib/stats_emitter.js:26-34 | Returns the counters minus the old checkpoint, and the full counters when there is no checkpoint yet. The result is never negative. The checkpoint is overwritten with the counters. The connection's history of checkpoints stays non-decreasing, the result is the latest entry of its report history, every report in that history is non-negative, and the reports sum to the counters. |
| RequestStats.StatsEmitter.Attach | lib/stats_emitter.js:57-60 | The listener is subscribed to `stats` if and only if it is a function. Otherwise the listeners are unchanged. |
| RequestStats.StatsEmitter.Publish | lib/stats_emitter.js:36 | Emitting a record appends it to what the emitter has emitted. |
| RequestStats.StatsEmitter.Record | lib/stats_emitter.js:19-23 | Starting a request subscribes the optional listener. It returns a fresh recorder for this request and response, with its clock started now and not yet fired. |
| RequestStats.StatsEmitter.Serve | lib/stats_emitter.js:14-16 | Attaching to a server subscribes the optional listener and registers the emitter as a handler of the server's `request` event. |
| RequestStats.StatsEmitter.OnServerRequest | lib/stats_emitter.js:16 | A request dispatched by the server gets its own fresh recorder, and no listener is subscribed for it. |
| RequestStats.Recorder.constructor | lib/stats_emitter.js:21-25 | A new recorder keeps the request, the response, the emitter and the start time, and has not fired. |
| RequestStats.Recorder.Complete | lib/stats_emitter.js:25-51 | The first call reports `ok`, the time since the start, the non-negative bytes since the connection's checkpoint, and the request's and response's fields as they are at that moment. It moves the checkpoint, publishes exactly that record, and keeps the history telescoping. A later call changes nothing. What gets through agrees with `CompletionGate.Admitted`. |
| RequestStats.Recorder.OnFinish | lib/stats_emitter.js:53 | `finish` completes the request with `ok` true, unless it has already completed. |
| RequestStats.Recorder.OnClose | lib/stats_emitter.js:54 | `close` completes the request with `ok` false, unless it has already completed. |
| Scenarios.FinishThenClose | test.js:186-196 | A request recorded with its own listener that finishes, and whose connection then closes, yields exactly one record. The record has `ok` set, the elapsed time, the request's method, path, headers and bytes, and the response's bytes, headers and status. |
| Scenarios.DestroyedBeforeResponse | test.js:105-116 | A request destroyed before any response yields a record with `ok` false, the request bytes, no response bytes and no response headers. |
| Scenarios.ServeOne | test.js:142-149 | A request on a connection at its checkpoint reports exactly the bytes it moved, and leaves the checkpoint at the connection's new totals. |
| Scenarios.KeepAlive | test.js:118-160 | Two requests over one reused connection each report their own bytes, not the connection's totals, and the two together sum to the connection's counters. |

## Left out

- `index.js` is not part of this model. It is an older, separate singleton emitter whose `_record` publishes the connection's cumulative `read`/`written` totals on `finish` or `close`, with no checkpoint and no fire-once wrapper, so it shares no code with `lib/stats_emitter.js`.
- The live-progress estimator and the time helpers (`lib/request.js`, `lib/utils.js`) are not part of this model.
- `process.hrtime` and `utils.toMilliseconds`: time is a natural-number clock passed in as `now`. It is assumed not to run backwards (`start <= now`), and the conversion to floating-point milliseconds is not modelled.
- `httpHeaders(res)`: the parsing of the sent response head is not modelled. The response carries the header map it has sent (empty before the head is written).
- EventEmitter dispatch: emitting a record appends it to the emitter's `published` sequence, and listeners are identified by number. Calling into listener code is not modelled.
- The server's own dispatch loop is left out. `HttpServer` only records the handlers bound to `request`, and `OnServerRequest` is what one dispatch runs.
- The transport is modelled only as `Connection.Transfer`, which grows the counters. Sockets, and the 64-bit width of the counters, are left out (the counters are unbounded naturals).
- A request without a connection: the code reads `req.connection` unconditionally, so the model makes the connection part of every request. It does not model the "default to 0 when the connection is missing" policy, because the code has no such branch.
- Re-registration of `res.once` listeners is not modelled: `OnFinish` and `OnClose` may each be called any number of times, and the fire-once flag alone decides what happens.
- The JavaScript `typeof listener === 'function'` test becomes the `ListenerArg` datatype, which is either a function or not a function.
