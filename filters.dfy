/** The filter chain of the user agent: `_runFilters` and the specification
    it is proved against. */
module Filters {
  import opened Values

  /** What one filter call did: it returned a value (a truthy one rejects the
      record) or it threw an exception object, of which only `message` is
      kept. A throw of null or undefined is not representable here. */
  datatype Outcome = Returned(value: Value) | Threw(message: Value)

  /** One filter call: its outcome and the record as the filter left it.
      Changes a filter makes before it throws stay in the record. */
  datatype Step = Step(outcome: Outcome, data: Record)

  /** A filter, called with the collection, the document name and the record. */
  type Filter = (Value, Value, Record) -> Step

  /** Whether an outcome ends the chain: a throw, or a truthy return value. */
  predicate Stops(o: Outcome) {
    o.Threw? || Truthy(o.value)
  }

  /** The value the chain hands back when it ends on `o`. */
  function ErrorOf(o: Outcome): Value {
    match o
    case Returned(v) => v
    case Threw(m) => m
  }

  /** The record after the first `k` filters have run over `data`, each one
      seeing the changes of those before it. */
  function Pipe(filters: seq<Filter>, collection: Value, docName: Value, data: Record, k: nat): Record
    requires k <= |filters|
  {
    if k == 0 then data
    else filters[k - 1](collection, docName, Pipe(filters, collection, docName, data, k - 1)).data
  }

  /** The outcome of filter `k`, called on the record as the earlier filters left it. */
  function OutcomeAt(filters: seq<Filter>, collection: Value, docName: Value, data: Record, k: nat): Outcome
    requires k < |filters|
  {
    filters[k](collection, docName, Pipe(filters, collection, docName, data, k)).outcome
  }

  /** The index of the first filter at or after `from` whose outcome ends the
      chain, or `|filters|` when none does. */
  function FirstStop(filters: seq<Filter>, collection: Value, docName: Value, data: Record, from: nat): (k: nat)
    requires from <= |filters|
    ensures from <= k <= |filters|
    ensures forall j :: from <= j < k ==> !Stops(OutcomeAt(filters, collection, docName, data, j))
    ensures k < |filters| ==> Stops(OutcomeAt(filters, collection, docName, data, k))
    decreases |filters| - from
  {
    if from == |filters| then from
    else if Stops(OutcomeAt(filters, collection, docName, data, from)) then from
    else FirstStop(filters, collection, docName, data, from + 1)
  }

  /** The result of one run of a chain: the value returned (undefined when no
      filter ends the chain), the record as left, and how many filters were called. */
  datatype Run = Run(err: Value, data: Record, invoked: nat)

  /** The specification of `_runFilters`: filters are called in order up to and
      including the first one that ends the chain, and none after it. */
  function Chain(filters: seq<Filter>, collection: Value, docName: Value, data: Record): Run {
    var k := FirstStop(filters, collection, docName, data, 0);
    if k < |filters| then
      Run(ErrorOf(OutcomeAt(filters, collection, docName, data, k)), Pipe(filters, collection, docName, data, k + 1), k + 1)
    else
      Run(Undefined, Pipe(filters, collection, docName, data, k), k)
  }

  /** `_runFilters`: runs the filters in index order over the record and
      returns the first truthy value a filter returns, or the message of the
      first exception a filter throws; undefined when neither happens.
      `invoked` counts the filter calls the loop makes. */
  method RunFilters(filters: seq<Filter>, collection: Value, docName: Value, data: Record)
    returns (err: Value, out: Record, invoked: nat)
    ensures err == Chain(filters, collection, docName, data).err
    ensures out == Chain(filters, collection, docName, data).data
    ensures invoked == Chain(filters, collection, docName, data).invoked
  {
    out := data;
    invoked := 0;
    var i := 0;
    while i < |filters|
      invariant 0 <= i <= |filters|
      invariant invoked == i
      invariant out == Pipe(filters, collection, docName, data, i)
      invariant forall j :: 0 <= j < i ==> !Stops(OutcomeAt(filters, collection, docName, data, j))
    {
      invoked := invoked + 1;
      var step := filters[i](collection, docName, out);
      out := step.data;
      match step.outcome {
        case Threw(message) =>
          ChainStops(filters, collection, docName, data, i);
          err := message;
          return;
        case Returned(v) =>
          if Truthy(v) {
            ChainStops(filters, collection, docName, data, i);
            err := v;
            return;
          }
      }
      i := i + 1;
    }
    ChainPasses(filters, collection, docName, data);
    err := Undefined;
  }

  /** When no filter ends the chain, every filter is called, the result is
      undefined and the record carries every filter's changes, in order. */
  lemma ChainPasses(filters: seq<Filter>, collection: Value, docName: Value, data: Record)
    requires forall j :: 0 <= j < |filters| ==> !Stops(OutcomeAt(filters, collection, docName, data, j))
    ensures Chain(filters, collection, docName, data)
         == Run(Undefined, Pipe(filters, collection, docName, data, |filters|), |filters|)
  {
  }

  /** When filter `j` is the first to end the chain, its return value or its
      exception's message is the result, filters up to `j` have changed the
      record, and no filter after `j` is called. */
  lemma ChainStops(filters: seq<Filter>, collection: Value, docName: Value, data: Record, j: nat)
    requires j < |filters|
    requires forall i :: 0 <= i < j ==> !Stops(OutcomeAt(filters, collection, docName, data, i))
    requires Stops(OutcomeAt(filters, collection, docName, data, j))
    ensures Chain(filters, collection, docName, data)
         == Run(ErrorOf(OutcomeAt(filters, collection, docName, data, j)), Pipe(filters, collection, docName, data, j + 1), j + 1)
  {
  }

  /** A filter that throws an exception without a truthy `message` ends the
      chain, yet the chain's result is falsy: callers read it as success,
      although the filters after the throwing one were never called. */
  lemma ThrowWithoutMessagePasses(filters: seq<Filter>, collection: Value, docName: Value, data: Record, j: nat)
    requires j < |filters|
    requires forall i :: 0 <= i < j ==> !Stops(OutcomeAt(filters, collection, docName, data, i))
    requires OutcomeAt(filters, collection, docName, data, j).Threw?
    requires !Truthy(OutcomeAt(filters, collection, docName, data, j).message)
    ensures !Truthy(Chain(filters, collection, docName, data).err)
    ensures Chain(filters, collection, docName, data).invoked == j + 1
  {
    ChainStops(filters, collection, docName, data, j);
  }

  /** Running a chain extended by more filters runs the original filters
      first, on the same records. */
  lemma {:induction false} PipeAppend(f1: seq<Filter>, f2: seq<Filter>, collection: Value, docName: Value, data: Record, k: nat)
    requires k <= |f1| + |f2|
    ensures k <= |f1| ==> Pipe(f1 + f2, collection, docName, data, k) == Pipe(f1, collection, docName, data, k)
    ensures k >= |f1| ==> Pipe(f1 + f2, collection, docName, data, k)
                          == Pipe(f2, collection, docName, Pipe(f1, collection, docName, data, |f1|), k - |f1|)
  {
    if k > 0 {
      PipeAppend(f1, f2, collection, docName, data, k - 1);
      if k > |f1| {
        assert (f1 + f2)[k - 1] == f2[k - 1 - |f1|];
      } else {
        assert (f1 + f2)[k - 1] == f1[k - 1];
      }
    }
  }

  /** In a chain extended by more filters, the original filters have the
      outcomes they have alone, and each added filter has the outcome it has
      in a chain of the added filters run over the original chain's record. */
  lemma OutcomeAppend(f1: seq<Filter>, f2: seq<Filter>, collection: Value, docName: Value, data: Record)
    ensures forall j :: 0 <= j < |f1| ==>
      OutcomeAt(f1 + f2, collection, docName, data, j) == OutcomeAt(f1, collection, docName, data, j)
    ensures forall j :: 0 <= j < |f2| ==>
      OutcomeAt(f1 + f2, collection, docName, data, |f1| + j)
      == OutcomeAt(f2, collection, docName, Pipe(f1, collection, docName, data, |f1|), j)
  {
    forall j | 0 <= j < |f1|
      ensures OutcomeAt(f1 + f2, collection, docName, data, j) == OutcomeAt(f1, collection, docName, data, j)
    {
      PipeAppend(f1, f2, collection, docName, data, j);
      assert (f1 + f2)[j] == f1[j];
    }
    forall j | 0 <= j < |f2|
      ensures OutcomeAt(f1 + f2, collection, docName, data, |f1| + j)
           == OutcomeAt(f2, collection, docName, Pipe(f1, collection, docName, data, |f1|), j)
    {
      PipeAppend(f1, f2, collection, docName, data, |f1| + j);
      assert (f1 + f2)[|f1| + j] == f2[j];
    }
  }

  /** A registry only ever grows at its end. If one of the earlier filters
      ends the chain, the filters registered after them are never called and
      the longer chain gives the same result as the shorter one. */
  lemma ChainAppendStopped(f1: seq<Filter>, f2: seq<Filter>, collection: Value, docName: Value, data: Record)
    requires FirstStop(f1, collection, docName, data, 0) < |f1|
    ensures Chain(f1 + f2, collection, docName, data) == Chain(f1, collection, docName, data)
  {
    var k1 := FirstStop(f1, collection, docName, data, 0);
    OutcomeAppend(f1, f2, collection, docName, data);
    PipeAppend(f1, f2, collection, docName, data, k1 + 1);
    ChainStops(f1, collection, docName, data, k1);
    ChainStops(f1 + f2, collection, docName, data, k1);
  }

  /** If every earlier filter passes the record, the filters registered
      after them run as a chain of their own over the record as the earlier
      ones left it. */
  lemma ChainAppendPassed(f1: seq<Filter>, f2: seq<Filter>, collection: Value, docName: Value, data: Record)
    requires FirstStop(f1, collection, docName, data, 0) == |f1|
    ensures var r2 := Chain(f2, collection, docName, Chain(f1, collection, docName, data).data);
      Chain(f1 + f2, collection, docName, data) == Run(r2.err, r2.data, |f1| + r2.invoked)
  {
    var d1 := Pipe(f1, collection, docName, data, |f1|);
    ChainPasses(f1, collection, docName, data);
    OutcomeAppend(f1, f2, collection, docName, data);
    var k2 := FirstStop(f2, collection, docName, d1, 0);
    forall j | 0 <= j < |f1| + k2
      ensures !Stops(OutcomeAt(f1 + f2, collection, docName, data, j))
    {
      if j >= |f1| {
        assert OutcomeAt(f1 + f2, collection, docName, data, |f1| + (j - |f1|))
            == OutcomeAt(f2, collection, docName, d1, j - |f1|);
      }
    }
    if k2 < |f2| {
      PipeAppend(f1, f2, collection, docName, data, |f1| + k2 + 1);
      ChainStops(f2, collection, docName, d1, k2);
      ChainStops(f1 + f2, collection, docName, data, |f1| + k2);
    } else {
      PipeAppend(f1, f2, collection, docName, data, |f1| + |f2|);
      ChainPasses(f2, collection, docName, d1);
      ChainPasses(f1 + f2, collection, docName, data);
    }
  }
}
