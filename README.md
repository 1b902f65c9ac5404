# ShareJS user agent: filtering and mediation core

This project models the mediation core of ShareJS's server-side user agent
(`src/server/useragent.js`) and proves properties of it in Dafny. A user
agent stands between one client session and the livedb backend. Every
operation it offers works the same way:

1. It builds a request and runs it through the instance's trigger dispatch,
   which may rewrite the request or reject it.
2. It calls the backend with the action as the triggers left it.
3. It runs the instance's document filters or op filters over what comes
   back. A filter may change a record in place, or reject it by returning a
   truthy value or by throwing.

The model is organised as follows:

- `values.dfy` (`Values`): JavaScript values, with truthiness spelled out as
  `if (v)` tests it. A plain object is a `map<string, Value>`, and reading a
  missing property gives `undefined`.
- `filters.dfy` (`Filters`): `_runFilters` as a method with a loop. It is
  proved against `Chain`, an index-based specification. `Pipe` is the record
  after the first k filters, and `FirstStop` is the first filter that ends
  the chain. A filter is a function from (collection, docName, record) to an
  outcome and the record as the filter left it. The outcome is a returned
  value or a thrown exception's `message`. Changes made before a throw are
  kept.
- `query_results.dfy` (`QueryResults`): `_filterQueryResults` as a method with
  a loop, proved against `FilterBatch`. The first rejected record decides the
  result, and records after it are never filtered.
- `streams.dfy` (`Streams`): `wrapOpStream`'s per-item transform, and the live
  query wrapper's `add`/`remove` handlers. Both are modelled as maps over the
  sequence of items or events the source produces.
- `requests.dfy` (`Requests`): the request record `trigger` builds.
- `useragent.dfy` (`UserAgent`): `trigger`, `filterDoc`/`filterOp`, and the
  seven facade operations. The trigger dispatch is given as the answer it
  reaches for each request. The backend's answer is a parameter. Each
  operation returns a `Trace` recording:
  - how the call ended (normally, or by throwing);
  - the trigger requests it built;
  - the backend call it made;
  - every invocation of the caller's callback, with its arguments;
  - the `validate` hook it installed.

Behaviour modelled exactly as written:

- `fetch` calls `actionForDoc`, which is defined nowhere. So `fetch` throws a
  ReferenceError before it does anything (`UserAgent.Fetch`). The code after
  that call is modelled separately as `UserAgent.FetchBody`.
- `getOps` answers its callback once per rejected op and then once more with
  `(null, results)`. It never stops early. The backend gets the caller's own
  `start`/`end`, and the filters get the caller's own collection and document
  name.
- `subscribe` and `fetchAndSubscribe` read `agent.docName`, a field the agent
  never has. The document name their filters see is therefore `undefined`.
- `subscribe` passes a backend error as both callback arguments, and so does
  `queryFetch`.
- `queryFetch` passes the query as the request's `docName`, but sends the
  backend the action's `query` field.
- `query` sends the backend the caller's own `options`, not the action's.
- In `subscribe`, `fetchAndSubscribe` and `query`, the backend's callback
  throws a TypeError when the backend reports no error but gives no stream or
  emitter. The facade call itself does not throw; `Raised` in the model's
  `Exit` covers both this and `fetch`'s synchronous ReferenceError.
- `submit` sets the `validate` hook on the caller's `opData` object, but
  submits the action's `opData`.
- A filter that throws an exception object with no truthy `message` ends the chain.
  Its caller still sees a falsy result and treats the record as passed
  (`Filters.ThrowWithoutMessagePasses`).
- Destroying a wrapped stream only forwards `destroy` to the source stream;
  nothing is claimed about calling it twice.

## Model

| member | source | states |
|---|---|---|
| `Filters.RunFilters` | src/server/useragent.js:26-37 | The loop's returned value, its record and the number of filter calls it makes are exactly those of `Chain`. Filters run in index order, each on the record the previous one left. The first truthy return value, or the first thrown message, is returned, and no later filter is called. Otherwise the result is undefined and every filter is called once. |
| `Filters.FirstStop` | src/server/useragent.js:28-30 | Gives the first filter whose outcome ends the chain: every earlier filter returned a falsy value, and this one threw or returned a truthy value. When no filter does, it gives the chain's length. |
| `Filters.ChainPasses` | src/server/useragent.js:28-31 | When no filter ends the chain, the result is undefined, every filter is called, and the record carries every filter's changes in order. |
| `Filters.ChainStops` | src/server/useragent.js:28-36 | When filter j is the first to return truthy or throw, the result is its return value or its exception's message. Exactly j+1 filters were called, so none after j, and the record carries only their changes. |
| `Filters.ThrowWithoutMessagePasses` | src/server/useragent.js:32-36 | A throw whose `message` is falsy still stops the chain after that filter, yet the result is falsy, so callers treat the record as passed. |
| `Filters.PipeAppend` | src/server/useragent.js:28-29 | In an extended registry, the original filters see the same records they see alone, and the added filters see the record the original ones left. |
| `Filters.OutcomeAppend` | src/server/useragent.js:28-29 | In an extended registry, each original filter has the outcome it has alone. Each added filter has the outcome it has when the added filters run alone, starting from the original chain's final record. |
| `Filters.ChainAppendStopped` | src/server/useragent.js:28-30 | If an earlier filter stops the chain, filters registered later are never called and the result is unchanged. |
| `Filters.ChainAppendPassed` | src/server/useragent.js:28-31 | If every earlier filter passes the record, the later filters run as a chain of their own over the record the earlier ones left. |
| `UserAgent.FilterDoc` | src/server/useragent.js:39-41 | Its result is the chain of the instance's document filters. |
| `UserAgent.FilterOp` | src/server/useragent.js:42-44 | Its result is the chain of the instance's op filters. |
| `Requests.BuildRequest` | src/server/useragent.js:47-58 | The request keeps every extra field. `action`, `collection`, `docName` and `backend` are set from the arguments, overriding extras of the same name. When a callback is passed in place of the extras, the request has exactly those four keys. |
| `UserAgent.Trigger` | src/server/useragent.js:47-60 | Builds exactly that request and hands it to the trigger dispatch, whose answer it returns. |
| `UserAgent.Fetch` | src/server/useragent.js:62-64 | Throws a ReferenceError. Nothing is triggered, the backend is not called, and the callback is never invoked. |
| `UserAgent.FetchBody` | src/server/useragent.js:66-79 | A trigger error alone goes to the callback, and the backend is not called. Otherwise the backend fetch targets the triggered collection and docName, and a backend error is passed on unfiltered. A found snapshot is filtered against the triggered target and delivered only if it passes; otherwise the rejection comes with null. |
| `UserAgent.GetOps` | src/server/useragent.js:82-102 | A trigger error stops the call before the backend. The backend gets the triggered target but the caller's own start/end. A backend error is passed on unfiltered. Otherwise every op is filtered against the caller's own collection and docName. There is one error callback per rejected op, in order, then a final `(null, results)` carrying every op's changes. |
| `UserAgent.GetOpsCallCount` | src/server/useragent.js:91-99 | The error callbacks number exactly the rejected ops, and each carries one truthy error. So there are 1 + (number of rejected ops) callback invocations in total. |
| `Streams.WrapOpStreamOneToOne` | src/server/useragent.js:109-117 | Each op yields exactly one pushed item, in input order. The item is `{error}` with the rejection exactly when the op's chain rejects it; otherwise it is the op with its filters' changes. |
| `Streams.WrapOpStreamAppend` | src/server/useragent.js:109-121 | Items already pushed do not change as more ops arrive. The output for a + b is the output for a followed by the output for b. |
| `UserAgent.Subscribe` | src/server/useragent.js:126-136 | A trigger error stops the call before the backend. The backend subscribes at the triggered docName and version. A backend error is passed as both callback arguments. A missing stream makes wrapping throw. Otherwise the caller gets the wrapped stream, whose filters see the triggered collection and an undefined docName. |
| `UserAgent.FetchAndSubscribe` | src/server/useragent.js:138-157 | Triggers `fetch`, then `subscribe` on the first dispatch's target; either rejection stops the call before the backend. The backend call uses the second dispatch's target. A backend error, or the snapshot's rejection (docName undefined), is the sole callback argument. Otherwise the caller gets null, the filtered snapshot, and the wrapped stream. |
| `UserAgent.Submit` | src/server/useragent.js:159-172 | A trigger error stops the call before the backend. Otherwise the `validate` hook goes on the caller's opData, bound to the triggered target, and the action's opData is submitted to that target. The backend answers the callback. An undefined or null opData throws before the backend is called. |
| `UserAgent.Validate` | src/server/useragent.js:166-168 | The hook triggers `validate` with opData and snapshot on the target it was bound to. The request holds exactly those two extras and the four fixed keys, and the dispatch's answer goes back. |
| `QueryResults.FilterQueryResults` | src/server/useragent.js:175-183 | The loop's returned error and records are exactly those of `FilterBatch`. |
| `QueryResults.FirstRejected` | src/server/useragent.js:176-181 | Gives the first record whose chain, run against its own `docName`, rejects it. Every earlier record passes. When none is rejected, it gives the batch length. |
| `QueryResults.BatchPasses` | src/server/useragent.js:175-183 | The batch passes if and only if every record passes its own chain. Then the result is undefined and every record carries its filters' changes. |
| `QueryResults.BatchFirstError` | src/server/useragent.js:176-182 | A rejected batch returns the first rejected record's error. Every record before it passed, and records after it were not filtered. |
| `UserAgent.QueryFetch` | src/server/useragent.js:185-199 | A trigger error stops the call before the backend. The backend runs the action's `query` field on the triggered collection, although the query itself went in as docName. A backend error is passed as both arguments. A rejected batch delivers only its error, twice. A passing batch delivers the filtered results. |
| `Streams.WrapFeedOneToOne` | src/server/useragent.js:218-228 | One event out per event in, in order. An `add` whose document is rejected becomes `error` with that rejection, never `add`. Any other `add` keeps its index and carries the filtered document. A `remove` passes unfiltered and unchanged. |
| `UserAgent.Query` | src/server/useragent.js:201-233 | A trigger error stops the call before the backend. The backend gets the triggered collection and query with the caller's own options. A backend error or a rejected initial batch is the sole callback argument, and no wrapper is built. Otherwise the caller gets the wrapper, whose `data` is the emitter's filtered results and whose events are the mapped source events. A missing emitter throws. |

## Left out

- Session identity and connection time (`hat()`, `new Date()`): opaque and non-deterministic, so the agent holds only its instance and stream.
- The Node `Transform` machinery (piping, backpressure, `destroy` forwarding to the source stream): foreign library calls. A wrapped stream is given by the items it will push.
- `EventEmitter` registration and dispatch, and all console logging. A wrapped live query is given by its `data` and the events it will emit. Source `error` events, which the wrapper does not listen to, are not modelled.
- The trigger dispatch `_trigger`: its handlers and their order live outside this file. Its answer for each request is an input, assumed to be delivered once.
- The livedb backend: its answers are inputs, as is the list of callback invocations it makes for `submit`. How often the backend calls the `validate` hook is also left to it; only what one call of the hook triggers is modelled.
- Filters are deterministic functions of (collection, docName, record). A filter's access to `this` (the agent) and any other side effects are not modelled.
- In-place mutation and aliasing: records are values, and a filter's changes come back as a new record. So the model does not show that a rejected batch's partly filtered records stay in `emitter.data`, or that `trigger` writes into the caller's `extraFields` object (every caller here passes a fresh literal).
- A filter that throws `null` or `undefined` makes `_runFilters` itself throw a TypeError, since reading `e.stack` in its catch block fails. That escape is not modelled: an `Outcome` throw is always an exception object with a `message`.
- `EventEmitter` throws when `'error'` is emitted with no listener. So the live query wrapper's rejection of an added document throws, rather than emits, unless the caller listens for `'error'`. `WrapFeed` records it as an emitted `Error` event.
- `wrapped.data` is the same array as the backend emitter's `data`. The model's `Feed.data` is a snapshot taken when the callback runs, and later changes to the emitter's array are not reflected.
- JavaScript numbers are integers here: NaN and fractions are not modelled.
- A missing snapshot, op list or result list is modelled as null; the model does not distinguish null from undefined there.
- Assigning `validate` to a primitive `opData` is modelled as silently lost, which is sloppy-mode semantics. The file does not enable strict mode.
