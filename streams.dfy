/** What the wrapped op stream pushes and what the wrapped live query emits,
    item by item. */
module Streams {
  import opened Values
  import opened Filters

  /** An item the wrapped op stream pushes: an error marker `{error}` in place
      of a rejected op, or the op as the filters left it. */
  datatype Item = ErrorItem(error: Value) | OpItem(op: Record)

  /** The passthrough's `_transform` for one op. */
  function TransformOp(opFilters: seq<Filter>, collection: Value, docName: Value, op: Record): Item {
    var r := Chain(opFilters, collection, docName, op);
    if Truthy(r.err) then ErrorItem(r.err) else OpItem(r.data)
  }

  /** The items the wrapped stream pushes for the ops the source stream carries. */
  function WrapOpStream(opFilters: seq<Filter>, collection: Value, docName: Value, ops: seq<Record>): seq<Item> {
    if ops == [] then []
    else [TransformOp(opFilters, collection, docName, ops[0])] + WrapOpStream(opFilters, collection, docName, ops[1..])
  }

  /** One in, one out, in order: op `k` yields item `k`, an error marker
      exactly when its chain rejects it, else the op with its filters' changes. */
  lemma {:induction false} WrapOpStreamOneToOne(opFilters: seq<Filter>, collection: Value, docName: Value, ops: seq<Record>)
    ensures |WrapOpStream(opFilters, collection, docName, ops)| == |ops|
    ensures forall k :: 0 <= k < |ops| ==>
      var r := Chain(opFilters, collection, docName, ops[k]);
      WrapOpStream(opFilters, collection, docName, ops)[k]
        == if Truthy(r.err) then ErrorItem(r.err) else OpItem(r.data)
  {
    if ops != [] {
      WrapOpStreamOneToOne(opFilters, collection, docName, ops[1..]);
      forall k | 0 < k < |ops|
        ensures WrapOpStream(opFilters, collection, docName, ops)[k]
             == WrapOpStream(opFilters, collection, docName, ops[1..])[k - 1]
      {
      }
    }
  }

  /** Items already pushed never change as more ops arrive: the stream's
      output for `a + b` is its output for `a` followed by its output for `b`. */
  lemma {:induction false} WrapOpStreamAppend(opFilters: seq<Filter>, collection: Value, docName: Value, a: seq<Record>, b: seq<Record>)
    ensures WrapOpStream(opFilters, collection, docName, a + b)
         == WrapOpStream(opFilters, collection, docName, a) + WrapOpStream(opFilters, collection, docName, b)
  {
    if a != [] {
      assert (a + b)[1..] == a[1..] + b;
      WrapOpStreamAppend(opFilters, collection, docName, a[1..], b);
    } else {
      assert a + b == b;
    }
  }

  /** An event of the backend's live query emitter. */
  datatype SourceEvent = Added(data: Record, idx: int) | Removed(data: Record, idx: int)

  /** An event of the wrapped emitter handed to the caller. */
  datatype FeedEvent = Add(data: Record, idx: int) | Remove(data: Record, idx: int) | Error(error: Value)

  /** The wrapper's `add` and `remove` handlers for one source event. */
  function OnLiveEvent(docFilters: seq<Filter>, collection: Value, e: SourceEvent): FeedEvent {
    match e
    case Added(data, idx) =>
      var r := Chain(docFilters, collection, DocNameOf(data), data);
      if Truthy(r.err) then Error(r.err) else Add(r.data, idx)
    case Removed(data, idx) => Remove(data, idx)
  }

  /** The events the wrapped emitter emits for the source's events. */
  function WrapFeed(docFilters: seq<Filter>, collection: Value, events: seq<SourceEvent>): seq<FeedEvent> {
    if events == [] then []
    else [OnLiveEvent(docFilters, collection, events[0])] + WrapFeed(docFilters, collection, events[1..])
  }

  /** One in, one out, in order: an `add` whose document its own chain
      rejects becomes an `error` with that rejection and never an `add`; any
      other `add` keeps its index and carries the filtered document; a
      `remove` is re-emitted unfiltered and unchanged. */
  lemma {:induction false} WrapFeedOneToOne(docFilters: seq<Filter>, collection: Value, events: seq<SourceEvent>)
    ensures |WrapFeed(docFilters, collection, events)| == |events|
    ensures forall k :: 0 <= k < |events| && events[k].Added? ==>
      var r := Chain(docFilters, collection, DocNameOf(events[k].data), events[k].data);
      WrapFeed(docFilters, collection, events)[k]
        == if Truthy(r.err) then Error(r.err) else Add(r.data, events[k].idx)
    ensures forall k :: 0 <= k < |events| && events[k].Removed? ==>
      WrapFeed(docFilters, collection, events)[k] == Remove(events[k].data, events[k].idx)
  {
    if events != [] {
      WrapFeedOneToOne(docFilters, collection, events[1..]);
      forall k | 0 < k < |events|
        ensures WrapFeed(docFilters, collection, events)[k]
             == WrapFeed(docFilters, collection, events[1..])[k - 1]
      {
      }
    }
  }
}
