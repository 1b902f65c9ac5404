/** JavaScript values as the user agent looks at them. */
module Values {

  /** A JavaScript value. Objects, arrays and functions that the agent only
      passes along are opaque references. Numbers are integers here. */
  datatype Value = Undefined | Null | Bool(b: bool) | Num(n: int) | Str(s: string) | Ref(id: nat)

  /** JavaScript truthiness, the test `if (v)` performs. */
  predicate Truthy(v: Value) {
    match v
    case Undefined => false
    case Null => false
    case Bool(b) => b
    case Num(n) => n != 0
    case Str(s) => s != ""
    case Ref(_) => true
  }

  /** A plain object whose own fields the agent reads or writes: a document
      snapshot, an op, a trigger request. */
  type Record = map<string, Value>

  /** Property read `r.key`; a missing property reads as undefined. */
  function Get(r: Record, key: string): Value {
    if key in r then r[key] else Undefined
  }

  /** `r.docName`, the name a query result record carries. */
  function DocNameOf(r: Record): Value {
    Get(r, "docName")
  }

  /** A value that may be missing (null in the source). */
  datatype Option<T> = None | Some(value: T)
}
