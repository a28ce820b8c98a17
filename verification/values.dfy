/** Optional values, used for the fields a budget item may lack. */
module Optional {

  datatype Option<+T> = None | Some(value: T) {

    /** JavaScript's nullish coalescing `x ?? default`. */
    function Coalesce(default: T): T {
      match this
      case Some(v) => v
      case None => default
    }
  }
}

/**
 * The dynamically typed values a Firestore document hands to the page.
 * Numbers are money amounts in cents, so they are integers here.
 */
module Values {

  /** A Firestore timestamp. The model only ever compares timestamps for equality. */
  datatype Timestamp = Timestamp(seconds: int, nanoseconds: int)

  /** One JavaScript value as `doc.data()` returns it. */
  datatype Value =
    | Undefined
    | Null
    | Bool(b: bool)
    | Num(n: int)
    | Str(s: string)
    | Stamp(t: Timestamp)
    | Other          // arrays, maps, references: never inspected by the page

  /** JavaScript truthiness: `undefined`, `null`, `false`, `0` and `""` are falsy. */
  predicate Truthy(v: Value) {
    match v
    case Undefined => false
    case Null => false
    case Bool(b) => b
    case Num(n) => n != 0
    case Str(s) => s != ""
    case Stamp(_) => true
    case Other => true
  }

  /** JavaScript's `a || b`: the first operand if it is truthy, else the second. */
  function Or(a: Value, b: Value): (r: Value)
    ensures Truthy(r) <==> Truthy(a) || Truthy(b)
    ensures r == a || r == b
    ensures Truthy(a) ==> r == a
  {
    if Truthy(a) then a else b
  }

  /** The data of one document: a field is either present or reads as `undefined`. */
  type Record = map<string, Value>

  /** `data.key` on a document's data. */
  function Get(data: Record, key: string): Value {
    if key in data then data[key] else Undefined
  }
}
