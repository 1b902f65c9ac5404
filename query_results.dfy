/** Filtering a batch of query results: `_filterQueryResults` and its
    all-or-nothing specification. */
module QueryResults {
  import opened Values
  import opened Filters

  /** The chain run over record `k` of a batch, against that record's own `docName`. */
  function RecordRun(filters: seq<Filter>, collection: Value, results: seq<Record>, k: nat): Run
    requires k < |results|
  {
    Chain(filters, collection, DocNameOf(results[k]), results[k])
  }

  /** The index of the first record at or after `from` that the chain rejects,
      or `|results|` when none is rejected. */
  function FirstRejected(filters: seq<Filter>, collection: Value, results: seq<Record>, from: nat): (k: nat)
    requires from <= |results|
    ensures from <= k <= |results|
    ensures forall j :: from <= j < k ==> !Truthy(RecordRun(filters, collection, results, j).err)
    ensures k < |results| ==> Truthy(RecordRun(filters, collection, results, k).err)
    decreases |results| - from
  {
    if from == |results| then from
    else if Truthy(RecordRun(filters, collection, results, from).err) then from
    else FirstRejected(filters, collection, results, from + 1)
  }

  /** The result of filtering a batch: the first rejection (undefined if
      none), the records as the filters left them, and how many were filtered. */
  datatype BatchRun = BatchRun(err: Value, results: seq<Record>, checked: nat)

  /** The specification of `_filterQueryResults`: records are filtered in
      order up to and including the first rejected one; later records are
      left as they were. */
  function FilterBatch(filters: seq<Filter>, collection: Value, results: seq<Record>): BatchRun {
    var k := FirstRejected(filters, collection, results, 0);
    var checked := if k < |results| then k + 1 else k;
    BatchRun(
      if k < |results| then RecordRun(filters, collection, results, k).err else Undefined,
      seq(|results|, i requires 0 <= i < |results| =>
        if i < checked then RecordRun(filters, collection, results, i).data else results[i]),
      checked)
  }

  /** `_filterQueryResults`: filters each record with the document filters,
      stopping at and returning the first rejection. */
  method FilterQueryResults(docFilters: seq<Filter>, collection: Value, results: seq<Record>)
    returns (err: Value, out: seq<Record>)
    ensures err == FilterBatch(docFilters, collection, results).err
    ensures out == FilterBatch(docFilters, collection, results).results
  {
    out := results;
    var i := 0;
    while i < |results|
      invariant 0 <= i <= |results|
      invariant |out| == |results|
      invariant forall j :: 0 <= j < i ==> !Truthy(RecordRun(docFilters, collection, results, j).err)
      invariant forall j :: 0 <= j < i ==> out[j] == RecordRun(docFilters, collection, results, j).data
      invariant forall j :: i <= j < |results| ==> out[j] == results[j]
    {
      var e, d, _ := RunFilters(docFilters, collection, DocNameOf(results[i]), results[i]);
      assert e == RecordRun(docFilters, collection, results, i).err;
      out := out[i := d];
      if Truthy(e) {
        assert FirstRejected(docFilters, collection, results, 0) == i;
        BatchMatches(docFilters, collection, results, out, i + 1);
        err := e;
        return;
      }
      i := i + 1;
    }
    assert FirstRejected(docFilters, collection, results, 0) == |results|;
    BatchMatches(docFilters, collection, results, out, |results|);
    err := Undefined;
  }

  /** A batch that agrees with the filtered records before `checked` and with
      the input after it is the batch `FilterBatch` describes. */
  lemma BatchMatches(filters: seq<Filter>, collection: Value, results: seq<Record>, out: seq<Record>, checked: nat)
    requires checked == FilterBatch(filters, collection, results).checked
    requires |out| == |results|
    requires forall j :: 0 <= j < checked ==> out[j] == RecordRun(filters, collection, results, j).data
    requires forall j :: checked <= j < |results| ==> out[j] == results[j]
    ensures out == FilterBatch(filters, collection, results).results
  {
  }

  /** All or nothing: the batch passes exactly when every record passes its
      own chain, and then every record carries its filters' changes. */
  lemma BatchPasses(filters: seq<Filter>, collection: Value, results: seq<Record>)
    ensures var b := FilterBatch(filters, collection, results);
      !Truthy(b.err) <==> forall k :: 0 <= k < |results| ==> !Truthy(RecordRun(filters, collection, results, k).err)
    ensures var b := FilterBatch(filters, collection, results);
      !Truthy(b.err) ==>
        && b.err == Undefined
        && b.checked == |results|
        && |b.results| == |results|
        && forall k :: 0 <= k < |results| ==> b.results[k] == RecordRun(filters, collection, results, k).data
  {
    var k := FirstRejected(filters, collection, results, 0);
    if k < |results| {
      assert Truthy(FilterBatch(filters, collection, results).err);
    }
  }

  /** First error wins: a rejected batch reports the rejection of its first
      rejected record, every record before it passed, and no record after it
      was filtered. */
  lemma BatchFirstError(filters: seq<Filter>, collection: Value, results: seq<Record>)
    ensures var b := FilterBatch(filters, collection, results);
      Truthy(b.err) ==>
        && 0 < b.checked <= |results|
        && b.err == RecordRun(filters, collection, results, b.checked - 1).err
        && (forall k :: 0 <= k < b.checked - 1 ==> !Truthy(RecordRun(filters, collection, results, k).err))
        && (forall k :: 0 <= k < b.checked ==> b.results[k] == RecordRun(filters, collection, results, k).data)
        && b.results[b.checked..] == results[b.checked..]
  {
  }
}
