/** The request record `trigger` builds before handing it to the trigger
    dispatch. */
module Requests {
  import opened Values

  /** The `extraFields` argument of `trigger`: an object of extra fields, or
      the callback passed in its place. */
  datatype Extra = Fields(fields: Record) | CallbackInPlace

  /** The four keys `trigger` always writes. */
  const FixedKeys: set<string> := {"action", "collection", "docName", "backend"}

  /** The object `trigger` writes into: the extra fields, or a fresh empty
      object when the callback was passed in their place. */
  function ExtraFields(extra: Extra): Record {
    if extra.Fields? then extra.fields else map[]
  }

  /** The request: every extra field is kept, except that the four fixed keys
      are set from the arguments, overriding extra fields of the same name. */
  function BuildRequest(action: Value, collection: Value, docName: Value, extra: Extra, backend: Value): (r: Record)
    ensures r.Keys == ExtraFields(extra).Keys + FixedKeys
    ensures extra.CallbackInPlace? ==> r.Keys == FixedKeys
    ensures Get(r, "action") == action && Get(r, "collection") == collection
    ensures Get(r, "docName") == docName && Get(r, "backend") == backend
    ensures forall k :: k in ExtraFields(extra) && k !in FixedKeys ==> k in r && r[k] == ExtraFields(extra)[k]
  {
    ExtraFields(extra)["action" := action]["collection" := collection]["docName" := docName]["backend" := backend]
  }
}
