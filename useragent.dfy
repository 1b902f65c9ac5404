/** The user agent: one session's mediation between its client and the
    backend. Each operation runs the trigger dispatch, calls the backend and
    filters what comes back; the outcomes of the dispatch and of the backend
    are given, and each operation returns the trace of what it did. */
module UserAgent {
  import opened Values
  import opened Filters
  import opened QueryResults
  import opened Streams
  import opened Requests

  /** What the trigger dispatch answers for a request: an error (truthy when
      a trigger rejected it) and the action as the triggers left it. */
  datatype TriggerAnswer = TriggerAnswer(err: Value, action: Record)

  /** The process-wide instance: its document and op filter registries, the
      trigger dispatch `_trigger` (given as the answer it reaches for each
      request) and the backend handle. */
  datatype Instance = Instance(
    docFilters: seq<Filter>,
    opFilters: seq<Filter>,
    runTriggers: Record -> TriggerAnswer,
    backend: Value)

  /** A session's agent, and the client stream it serves. */
  datatype Agent = Agent(instance: Instance, stream: Value) {
    /** `this.backend`, copied from the instance when the agent is made. */
    function Backend(): Value {
      instance.backend
    }
  }

  /** How an operation ends: normally, or by throwing. `Raised` covers both a
      throw from the facade call itself (`fetch`'s ReferenceError) and a
      throw from inside the callback the backend calls (the TypeError when
      no stream or emitter comes back). */
  datatype Exit = Completed | Raised(error: string)

  /** The call an operation makes into the backend, with its arguments. */
  datatype BackendCall =
    | FetchCall(collection: Value, docName: Value)
    | GetOpsCall(collection: Value, docName: Value, start: Value, end: Value)
    | SubscribeCall(collection: Value, docName: Value, version: Value)
    | FetchAndSubscribeCall(collection: Value, docName: Value)
    | SubmitCall(collection: Value, docName: Value, opData: Value)
    | QueryFetchCall(collection: Value, query: Value)
    | QueryCall(collection: Value, query: Value, options: Value)

  /** One argument passed to the caller's callback. A wrapped op stream is
      given by the target its filters see and the items it will push; a
      wrapped live query by its `data` and the events it will emit. */
  datatype Arg =
    | Val(v: Value)
    | Rec(r: Record)
    | Recs(rs: seq<Record>)
    | Stream(collection: Value, docName: Value, items: seq<Item>)
    | Feed(data: seq<Record>, events: seq<FeedEvent>)

  /** The `validate` hook `submit` installs: the object it is set on and the
      collection and document name it triggers `validate` with. */
  datatype Hook = Hook(on: Value, collection: Value, docName: Value)

  /** What one operation did: how it exited, the requests it triggered, the
      backend call it made, the callback invocations (each a list of
      arguments) and the hook it installed. */
  datatype Trace = Trace(
    exit: Exit,
    requests: seq<Record>,
    backend: Option<BackendCall>,
    calls: seq<seq<Arg>>,
    hook: Option<Hook>)

  /** The trace of an operation the trigger dispatch rejected: the error goes
      to the callback and the backend is not called. */
  function Stopped(requests: seq<Record>, err: Value): Trace {
    Trace(Completed, requests, None, [[Val(err)]], None)
  }

  /** The request `trigger` builds on this agent. */
  function Request(agent: Agent, action: string, collection: Value, docName: Value, extra: Extra): Record {
    BuildRequest(Str(action), collection, docName, extra, agent.Backend())
  }

  /** The trigger dispatch's answer for a request. */
  function Answer(agent: Agent, request: Record): TriggerAnswer {
    agent.instance.runTriggers(request)
  }

  /** `trigger`: writes the action, the target and the backend into the
      extra fields and runs the trigger dispatch over the result. */
  method Trigger(agent: Agent, action: string, collection: Value, docName: Value, extra: Extra)
    returns (request: Record, reply: TriggerAnswer)
    ensures request == BuildRequest(Str(action), collection, docName, extra, agent.Backend())
    ensures reply == agent.instance.runTriggers(request)
  {
    request := ExtraFields(extra);
    request := request["action" := Str(action)];
    request := request["collection" := collection];
    request := request["docName" := docName];
    request := request["backend" := agent.Backend()];
    reply := agent.instance.runTriggers(request);
  }

  /** `filterDoc`: the chain of the instance's document filters. */
  method FilterDoc(agent: Agent, collection: Value, docName: Value, data: Record)
    returns (err: Value, out: Record)
    ensures err == Chain(agent.instance.docFilters, collection, docName, data).err
    ensures out == Chain(agent.instance.docFilters, collection, docName, data).data
  {
    var invoked;
    err, out, invoked := RunFilters(agent.instance.docFilters, collection, docName, data);
  }

  /** `filterOp`: the chain of the instance's op filters. */
  method FilterOp(agent: Agent, collection: Value, docName: Value, data: Record)
    returns (err: Value, out: Record)
    ensures err == Chain(agent.instance.opFilters, collection, docName, data).err
    ensures out == Chain(agent.instance.opFilters, collection, docName, data).data
  {
    var invoked;
    err, out, invoked := RunFilters(agent.instance.opFilters, collection, docName, data);
  }

  /** The backend's answer to `fetch`: an error and the snapshot, if any. */
  datatype DocAnswer = DocAnswer(err: Value, data: Option<Record>)

  /** `fetch` as written: its first statement calls `actionForDoc`, which is
      defined nowhere, so the call throws a ReferenceError before it
      triggers anything, calls the backend or answers the callback. */
  method Fetch(agent: Agent, collection: Value, docName: Value, answer: DocAnswer) returns (t: Trace)
    ensures t.exit == Raised("ReferenceError")
    ensures t.requests == [] && t.backend == None && t.calls == [] && t.hook == None
  {
    t := Trace(Raised("ReferenceError"), [], None, [], None);
  }

  /** The rest of `fetch`, which the thrown ReferenceError keeps from running:
      trigger `fetch`, fetch the triggered target and filter the snapshot,
      when there is one, against that target. */
  method FetchBody(agent: Agent, collection: Value, docName: Value, answer: DocAnswer) returns (t: Trace)
    ensures var req := Request(agent, "fetch", collection, docName, CallbackInPlace);
      t.exit == Completed && t.requests == [req] && t.hook == None
    ensures var reply := Answer(agent, Request(agent, "fetch", collection, docName, CallbackInPlace));
      Truthy(reply.err) ==> t == Stopped(t.requests, reply.err)
    ensures var reply := Answer(agent, Request(agent, "fetch", collection, docName, CallbackInPlace));
      var c, n := Get(reply.action, "collection"), Get(reply.action, "docName");
      !Truthy(reply.err) ==>
        && t.backend == Some(FetchCall(c, n))
        && (Truthy(answer.err) ==> t.calls == [[Val(answer.err)]])
        && (!Truthy(answer.err) && answer.data.None? ==> t.calls == [[Val(answer.err), Val(Null)]])
        && (!Truthy(answer.err) && answer.data.Some? ==>
              var r := Chain(agent.instance.docFilters, c, n, answer.data.value);
              t.calls == [[Val(r.err), if Truthy(r.err) then Val(Null) else Rec(r.data)]])
  {
    var request, reply := Trigger(agent, "fetch", collection, docName, CallbackInPlace);
    if Truthy(reply.err) {
      t := Stopped([request], reply.err);
      return;
    }
    var c, n := Get(reply.action, "collection"), Get(reply.action, "docName");
    var call := Some(FetchCall(c, n));
    if Truthy(answer.err) {
      t := Trace(Completed, [request], call, [[Val(answer.err)]], None);
      return;
    }
    var err := answer.err;
    var data: Arg := Val(Null);
    if answer.data.Some? {
      var out;
      err, out := FilterDoc(agent, c, n, answer.data.value);
      data := Rec(out);
    }
    t := Trace(Completed, [request], call, [[Val(err), if Truthy(err) then Val(Null) else data]], None);
  }

  /** The error callbacks `getOps` makes while it filters `ops`: one per
      rejected op, in order. */
  function RejectionCalls(opFilters: seq<Filter>, collection: Value, docName: Value, ops: seq<Record>): seq<seq<Arg>>
    decreases |ops|
  {
    if ops == [] then []
    else
      var r := Chain(opFilters, collection, docName, ops[|ops| - 1]);
      RejectionCalls(opFilters, collection, docName, ops[..|ops| - 1]) + (if Truthy(r.err) then [[Val(r.err)]] else [])
  }

  /** Every op as its chain leaves it. */
  function FilterEach(opFilters: seq<Filter>, collection: Value, docName: Value, ops: seq<Record>): seq<Record> {
    seq(|ops|, k requires 0 <= k < |ops| => Chain(opFilters, collection, docName, ops[k]).data)
  }

  /** The positions of the ops the chain rejects. */
  function Rejected(opFilters: seq<Filter>, collection: Value, docName: Value, ops: seq<Record>): set<int> {
    set k | 0 <= k < |ops| && Truthy(Chain(opFilters, collection, docName, ops[k]).err)
  }

  /** Extending the ops by one adds that op's position to the rejected ones
      exactly when its chain rejects it. */
  lemma RejectedSnoc(opFilters: seq<Filter>, collection: Value, docName: Value, ops: seq<Record>)
    requires ops != []
    ensures var last := |ops| - 1;
      var before := Rejected(opFilters, collection, docName, ops[..last]);
      && last !in before
      && Rejected(opFilters, collection, docName, ops)
         == before + (if Truthy(Chain(opFilters, collection, docName, ops[last]).err) then {last} else {})
  {
    var last := |ops| - 1;
    var prefix := ops[..last];
    assert forall k :: 0 <= k < last ==> ops[k] == prefix[k];
  }

  /** `getOps` answers once for each rejected op, each time with that op's
      truthy error; with the final `(null, results)` that makes 1 + (number of
      rejected ops) callback invocations. */
  lemma {:induction false} GetOpsCallCount(opFilters: seq<Filter>, collection: Value, docName: Value, ops: seq<Record>)
    ensures |RejectionCalls(opFilters, collection, docName, ops)| == |Rejected(opFilters, collection, docName, ops)|
    ensures forall i :: 0 <= i < |RejectionCalls(opFilters, collection, docName, ops)| ==>
      var call := RejectionCalls(opFilters, collection, docName, ops)[i];
      |call| == 1 && call[0].Val? && Truthy(call[0].v)
    decreases |ops|
  {
    if ops != [] {
      GetOpsCallCount(opFilters, collection, docName, ops[..|ops| - 1]);
      RejectedSnoc(opFilters, collection, docName, ops);
    }
  }

  /** The backend's answer to `getOps`: an error and the ops, if any. Also the
      backend's answer to `queryFetch`, with snapshots in place of ops. */
  datatype RecordsAnswer = RecordsAnswer(err: Value, results: Option<seq<Record>>)

  /** `getOps`: trigger `getOps`, read the triggered document's ops, filter
      every op against the caller's own collection and document name, answer
      the callback once per rejected op and then once with all the ops. */
  method GetOps(agent: Agent, collection: Value, docName: Value, start: Value, end: Value, answer: RecordsAnswer)
    returns (t: Trace)
    ensures var req := Request(agent, "getOps", collection, docName, Fields(map["start" := start, "end" := end]));
      t.exit == Completed && t.requests == [req] && t.hook == None
    ensures var reply := Answer(agent, Request(agent, "getOps", collection, docName, Fields(map["start" := start, "end" := end])));
      Truthy(reply.err) ==> t == Stopped(t.requests, reply.err)
    ensures var reply := Answer(agent, Request(agent, "getOps", collection, docName, Fields(map["start" := start, "end" := end])));
      !Truthy(reply.err) ==>
        && t.backend == Some(GetOpsCall(Get(reply.action, "collection"), Get(reply.action, "docName"), start, end))
        && (Truthy(answer.err) ==> t.calls == [[Val(answer.err)]])
        && (!Truthy(answer.err) && answer.results.None? ==> t.calls == [[Val(Null), Val(Null)]])
        && (!Truthy(answer.err) && answer.results.Some? ==>
              t.calls == RejectionCalls(agent.instance.opFilters, collection, docName, answer.results.value)
                       + [[Val(Null), Recs(FilterEach(agent.instance.opFilters, collection, docName, answer.results.value))]])
  {
    var request, reply := Trigger(agent, "getOps", collection, docName, Fields(map["start" := start, "end" := end]));
    if Truthy(reply.err) {
      t := Stopped([request], reply.err);
      return;
    }
    var call := Some(GetOpsCall(Get(reply.action, "collection"), Get(reply.action, "docName"), start, end));
    if Truthy(answer.err) {
      t := Trace(Completed, [request], call, [[Val(answer.err)]], None);
      return;
    }
    var calls: seq<seq<Arg>> := [];
    var delivered: Arg := Val(Null);
    if answer.results.Some? {
      var results := answer.results.value;
      var out := results;
      var i := 0;
      while i < |results|
        invariant 0 <= i <= |results|
        invariant |out| == |results|
        invariant forall k :: 0 <= k < i ==> out[k] == Chain(agent.instance.opFilters, collection, docName, results[k]).data
        invariant forall k :: i <= k < |results| ==> out[k] == results[k]
        invariant calls == RejectionCalls(agent.instance.opFilters, collection, docName, results[..i])
      {
        var err, d := FilterOp(agent, collection, docName, results[i]);
        out := out[i := d];
        if Truthy(err) {
          calls := calls + [[Val(err)]];
        }
        assert results[..i + 1][..i] == results[..i];
        i := i + 1;
      }
      assert results[..i] == results;
      assert out == FilterEach(agent.instance.opFilters, collection, docName, results);
      delivered := Recs(out);
    }
    t := Trace(Completed, [request], call, calls + [[Val(Null), delivered]], None);
  }

  /** The backend's answer to `subscribe`: an error and the op stream, if
      any, given by the ops it carries. */
  datatype StreamAnswer = StreamAnswer(err: Value, stream: Option<seq<Record>>)

  /** `subscribe`: trigger `subscribe`, subscribe to the triggered document
      at the triggered version and hand the caller the stream wrapped over
      the triggered collection, with `agent.docName` (undefined) as the
      document name its filters see. A backend error is passed as both
      arguments; a missing stream makes the wrapping throw. */
  method Subscribe(agent: Agent, collection: Value, docName: Value, version: Value, answer: StreamAnswer)
    returns (t: Trace)
    ensures var req := Request(agent, "subscribe", collection, docName, Fields(map["version" := version]));
      t.requests == [req] && t.hook == None
    ensures var reply := Answer(agent, Request(agent, "subscribe", collection, docName, Fields(map["version" := version])));
      Truthy(reply.err) ==> t == Stopped(t.requests, reply.err)
    ensures var reply := Answer(agent, Request(agent, "subscribe", collection, docName, Fields(map["version" := version])));
      var c := Get(reply.action, "collection");
      !Truthy(reply.err) ==>
        && t.backend == Some(SubscribeCall(c, Get(reply.action, "docName"), Get(reply.action, "version")))
        && (Truthy(answer.err) ==> t.exit == Completed && t.calls == [[Val(answer.err), Val(answer.err)]])
        && (!Truthy(answer.err) && answer.stream.None? ==> t.exit == Raised("TypeError") && t.calls == [])
        && (!Truthy(answer.err) && answer.stream.Some? ==>
              t.exit == Completed &&
              t.calls == [[Val(answer.err), Stream(c, Undefined, WrapOpStream(agent.instance.opFilters, c, Undefined, answer.stream.value))]])
  {
    var request, reply := Trigger(agent, "subscribe", collection, docName, Fields(map["version" := version]));
    if Truthy(reply.err) {
      t := Stopped([request], reply.err);
      return;
    }
    var c := Get(reply.action, "collection");
    var n := Undefined;  // `agent.docName`, a field the agent never has
    var call := Some(SubscribeCall(c, Get(reply.action, "docName"), Get(reply.action, "version")));
    if Truthy(answer.err) {
      t := Trace(Completed, [request], call, [[Val(answer.err), Val(answer.err)]], None);
    } else if answer.stream.None? {
      t := Trace(Raised("TypeError"), [request], call, [], None);
    } else {
      var wrapped := Stream(c, n, WrapOpStream(agent.instance.opFilters, c, n, answer.stream.value));
      t := Trace(Completed, [request], call, [[Val(answer.err), wrapped]], None);
    }
  }

  /** The backend's answer to `fetchAndSubscribe`: an error, the snapshot if
      any and the op stream if any. */
  datatype DocStreamAnswer = DocStreamAnswer(err: Value, data: Option<Record>, stream: Option<seq<Record>>)

  /** `fetchAndSubscribe`: trigger `fetch`, then trigger `subscribe` on the
      target the first dispatch left, fetch and subscribe to the target the
      second dispatch left, filter the snapshot (document name undefined,
      as in `subscribe`) and hand the caller the snapshot and the wrapped
      stream. Either trigger's error, the backend's error or the snapshot's
      rejection is the only answer. */
  method FetchAndSubscribe(agent: Agent, collection: Value, docName: Value, answer: DocStreamAnswer)
    returns (t: Trace)
    ensures var req1 := Request(agent, "fetch", collection, docName, CallbackInPlace);
      var reply1 := Answer(agent, req1);
      && t.hook == None
      && (Truthy(reply1.err) ==> t == Stopped([req1], reply1.err))
    ensures var req1 := Request(agent, "fetch", collection, docName, CallbackInPlace);
      var reply1 := Answer(agent, req1);
      var req2 := Request(agent, "subscribe", Get(reply1.action, "collection"), Get(reply1.action, "docName"), CallbackInPlace);
      var reply2 := Answer(agent, req2);
      !Truthy(reply1.err) ==>
        && t.requests == [req1, req2]
        && (Truthy(reply2.err) ==> t == Stopped(t.requests, reply2.err))
    ensures var reply1 := Answer(agent, Request(agent, "fetch", collection, docName, CallbackInPlace));
      var reply2 := Answer(agent, Request(agent, "subscribe", Get(reply1.action, "collection"), Get(reply1.action, "docName"), CallbackInPlace));
      var c := Get(reply2.action, "collection");
      var r := if answer.data.Some? then Chain(agent.instance.docFilters, c, Undefined, answer.data.value) else Run(Undefined, map[], 0);
      !Truthy(reply1.err) && !Truthy(reply2.err) ==>
        && t.backend == Some(FetchAndSubscribeCall(c, Get(reply2.action, "docName")))
        && (Truthy(answer.err) ==> t.exit == Completed && t.calls == [[Val(answer.err)]])
        && (!Truthy(answer.err) && Truthy(r.err) ==> t.exit == Completed && t.calls == [[Val(r.err)]])
        && (!Truthy(answer.err) && !Truthy(r.err) && answer.stream.None? ==> t.exit == Raised("TypeError") && t.calls == [])
        && (!Truthy(answer.err) && !Truthy(r.err) && answer.stream.Some? ==>
              t.exit == Completed &&
              t.calls == [[Val(Null), if answer.data.Some? then Rec(r.data) else Val(Null),
                           Stream(c, Undefined, WrapOpStream(agent.instance.opFilters, c, Undefined, answer.stream.value))]])
  {
    var request1, reply1 := Trigger(agent, "fetch", collection, docName, CallbackInPlace);
    if Truthy(reply1.err) {
      t := Stopped([request1], reply1.err);
      return;
    }
    var request2, reply2 := Trigger(agent, "subscribe", Get(reply1.action, "collection"), Get(reply1.action, "docName"), CallbackInPlace);
    var requests := [request1, request2];
    if Truthy(reply2.err) {
      t := Stopped(requests, reply2.err);
      return;
    }
    var c := Get(reply2.action, "collection");
    var n := Undefined;  // `agent.docName`, a field the agent never has
    var call := Some(FetchAndSubscribeCall(c, Get(reply2.action, "docName")));
    var err := answer.err;
    var data: Arg := Val(Null);
    if !Truthy(err) && answer.data.Some? {
      var out;
      err, out := FilterDoc(agent, c, n, answer.data.value);
      data := Rec(out);
    }
    if Truthy(err) {
      t := Trace(Completed, requests, call, [[Val(err)]], None);
    } else if answer.stream.None? {
      t := Trace(Raised("TypeError"), requests, call, [], None);
    } else {
      var wrapped := Stream(c, n, WrapOpStream(agent.instance.opFilters, c, n, answer.stream.value));
      t := Trace(Completed, requests, call, [[Val(Null), data, wrapped]], None);
    }
  }

  /** `submit`: trigger `submit`, set the `validate` hook on the caller's
      `opData` (it triggers `validate` on the triggered target), and submit
      the triggered action's `opData`; the callback goes to the backend,
      whose invocations of it are `answer`. Setting the hook on undefined or
      null throws; on another primitive it is silently lost. */
  method Submit(agent: Agent, collection: Value, docName: Value, opData: Value, answer: seq<seq<Arg>>)
    returns (t: Trace)
    ensures var req := Request(agent, "submit", collection, docName, Fields(map["opData" := opData]));
      t.requests == [req]
    ensures var reply := Answer(agent, Request(agent, "submit", collection, docName, Fields(map["opData" := opData])));
      Truthy(reply.err) ==> t == Stopped(t.requests, reply.err)
    ensures var reply := Answer(agent, Request(agent, "submit", collection, docName, Fields(map["opData" := opData])));
      var c, n := Get(reply.action, "collection"), Get(reply.action, "docName");
      !Truthy(reply.err) ==>
        && ((opData.Undefined? || opData.Null?) ==>
              t.exit == Raised("TypeError") && t.backend == None && t.calls == [] && t.hook == None)
        && (!(opData.Undefined? || opData.Null?) ==>
              && t.exit == Completed
              && t.backend == Some(SubmitCall(c, n, Get(reply.action, "opData")))
              && t.calls == answer
              && t.hook == (if opData.Ref? then Some(Hook(opData, c, n)) else None))
  {
    var request, reply := Trigger(agent, "submit", collection, docName, Fields(map["opData" := opData]));
    if Truthy(reply.err) {
      t := Stopped([request], reply.err);
      return;
    }
    var c, n := Get(reply.action, "collection"), Get(reply.action, "docName");
    if opData.Undefined? || opData.Null? {
      t := Trace(Raised("TypeError"), [request], None, [], None);
      return;
    }
    var hook := if opData.Ref? then Some(Hook(opData, c, n)) else None;
    t := Trace(Completed, [request], Some(SubmitCall(c, n, Get(reply.action, "opData"))), answer, hook);
  }

  /** The `validate` hook, when the backend calls it: trigger `validate` with
      the op and the snapshot on the target `submit`'s dispatch left; the
      dispatch's answer goes back to the backend. */
  method Validate(agent: Agent, hook: Hook, opData: Value, snapshot: Value)
    returns (request: Record, reply: TriggerAnswer)
    ensures Get(request, "action") == Str("validate")
    ensures Get(request, "collection") == hook.collection && Get(request, "docName") == hook.docName
    ensures Get(request, "opData") == opData && Get(request, "snapshot") == snapshot
    ensures Get(request, "backend") == agent.Backend()
    ensures request.Keys == FixedKeys + {"opData", "snapshot"}
    ensures reply == agent.instance.runTriggers(request)
  {
    request, reply := Trigger(agent, "validate", hook.collection, hook.docName, Fields(map["opData" := opData, "snapshot" := snapshot]));
  }

  /** `queryFetch`: trigger `query` with the query in the document-name
      position, run the triggered action's `query` on the triggered
      collection and filter the results as one batch. A rejected batch is
      never delivered: its error is passed as both arguments. */
  method QueryFetch(agent: Agent, collection: Value, query: Value, answer: RecordsAnswer)
    returns (t: Trace)
    ensures var req := Request(agent, "query", collection, query, Fields(map["fetch" := Bool(true)]));
      t.exit == Completed && t.requests == [req] && t.hook == None
    ensures var reply := Answer(agent, Request(agent, "query", collection, query, Fields(map["fetch" := Bool(true)])));
      Truthy(reply.err) ==> t == Stopped(t.requests, reply.err)
    ensures var reply := Answer(agent, Request(agent, "query", collection, query, Fields(map["fetch" := Bool(true)])));
      var c := Get(reply.action, "collection");
      !Truthy(reply.err) ==>
        && t.backend == Some(QueryFetchCall(c, Get(reply.action, "query")))
        && (Truthy(answer.err) ==> t.calls == [[Val(answer.err), Val(answer.err)]])
        && (!Truthy(answer.err) && answer.results.None? ==> t.calls == [[Val(answer.err), Val(Null)]])
        && (!Truthy(answer.err) && answer.results.Some? ==>
              var b := FilterBatch(agent.instance.docFilters, c, answer.results.value);
              t.calls == [[Val(b.err), if Truthy(b.err) then Val(b.err) else Recs(b.results)]])
  {
    var request, reply := Trigger(agent, "query", collection, query, Fields(map["fetch" := Bool(true)]));
    if Truthy(reply.err) {
      t := Stopped([request], reply.err);
      return;
    }
    var c := Get(reply.action, "collection");
    var call := Some(QueryFetchCall(c, Get(reply.action, "query")));
    var err := answer.err;
    var results: Arg := Val(Null);
    if !Truthy(err) && answer.results.Some? {
      var out;
      err, out := FilterQueryResults(agent.instance.docFilters, c, answer.results.value);
      results := Recs(out);
    }
    t := Trace(Completed, [request], call, [[Val(err), if Truthy(err) then Val(err) else results]], None);
  }

  /** A live query emitter: its current results and the events it emits. */
  datatype LiveQuery = LiveQuery(data: seq<Record>, events: seq<SourceEvent>)

  /** The backend's answer to `query`: an error and the emitter, if any. */
  datatype QueryAnswer = QueryAnswer(err: Value, emitter: Option<LiveQuery>)

  /** `query`: trigger `query` (no document name), run the triggered
      action's `query` on the triggered collection with the caller's own
      options, filter the initial results as one batch and, only if the
      batch passes, hand the caller the wrapped emitter, whose `data` is the
      emitter's filtered results. A missing emitter makes the wrapping throw. */
  method Query(agent: Agent, collection: Value, query: Value, options: Value, answer: QueryAnswer)
    returns (t: Trace)
    ensures var req := Request(agent, "query", collection, Null, Fields(map["query" := query, "options" := options]));
      t.requests == [req] && t.hook == None
    ensures var reply := Answer(agent, Request(agent, "query", collection, Null, Fields(map["query" := query, "options" := options])));
      Truthy(reply.err) ==> t == Stopped(t.requests, reply.err)
    ensures var reply := Answer(agent, Request(agent, "query", collection, Null, Fields(map["query" := query, "options" := options])));
      var c := Get(reply.action, "collection");
      !Truthy(reply.err) ==>
        && t.backend == Some(QueryCall(c, Get(reply.action, "query"), options))
        && (Truthy(answer.err) ==> t.exit == Completed && t.calls == [[Val(answer.err)]])
        && (!Truthy(answer.err) && answer.emitter.None? ==> t.exit == Raised("TypeError") && t.calls == [])
        && (!Truthy(answer.err) && answer.emitter.Some? ==>
              var b := FilterBatch(agent.instance.docFilters, c, answer.emitter.value.data);
              && t.exit == Completed
              && (Truthy(b.err) ==> t.calls == [[Val(b.err)]])
              && (!Truthy(b.err) ==>
                    t.calls == [[Val(Null), Feed(b.results, WrapFeed(agent.instance.docFilters, c, answer.emitter.value.events))]]))
  {
    var request, reply := Trigger(agent, "query", collection, Null, Fields(map["query" := query, "options" := options]));
    if Truthy(reply.err) {
      t := Stopped([request], reply.err);
      return;
    }
    var c := Get(reply.action, "collection");
    var call := Some(QueryCall(c, Get(reply.action, "query"), options));
    if Truthy(answer.err) {
      t := Trace(Completed, [request], call, [[Val(answer.err)]], None);
      return;
    }
    if answer.emitter.None? {
      t := Trace(Raised("TypeError"), [request], call, [], None);
      return;
    }
    var emitter := answer.emitter.value;
    var err, data := FilterQueryResults(agent.instance.docFilters, c, emitter.data);
    if Truthy(err) {
      t := Trace(Completed, [request], call, [[Val(err)]], None);
      return;
    }
    var wrapped := Feed(data, WrapFeed(agent.instance.docFilters, c, emitter.events));
    t := Trace(Completed, [request], call, [[Val(Null), wrapped]], None);
  }
}
