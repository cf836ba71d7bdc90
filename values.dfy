/** The values a stored video document and a request body are made of, the
    Python truthiness the handlers test them with, and the library behaviour
    (bson, datetime, pydantic) the model treats as opaque. */
module Values {

  datatype Option<+T> = None | Some(value: T) {
    predicate IsFailure() { None? }

    function PropagateFailure<U>(): Option<U>
      requires None?
    {
      None
    }

    function Extract(): T
      requires Some?
    {
      value
    }
  }

  /** A Python `datetime`: only its identity matters, its text comes from `Library.isoText`. */
  datatype Moment = Moment(year: int, month: int, day: int, hour: int, minute: int, second: int, microsecond: int)

  /** A BSON/JSON value as the driver hands it to Python. */
  datatype Value =
    | Null                          // None
    | Bool(b: bool)
    | Int(i: int)
    | Str(s: string)
    | ObjectId(raw: seq<bv8>)       // bson.ObjectId, twelve bytes in practice
    | Temporal(moment: Moment)      // datetime.datetime: the only kind with `isoformat`
    | List(items: seq<Value>)
    | Object(fields: map<string, Value>)

  /** A document: a Python dict from string keys to values. */
  type Doc = map<string, Value>

  /** Python's `bool(v)`. */
  predicate Truthy(v: Value) {
    match v
    case Null => false
    case Bool(b) => b
    case Int(i) => i != 0
    case Str(s) => s != ""
    case ObjectId(_) => true
    case Temporal(_) => true
    case List(xs) => xs != []
    case Object(m) => m != map[]
  }

  /** `hasattr(v, "isoformat")`. */
  predicate HasIsoformat(v: Value) {
    v.Temporal?
  }

  /** Truthiness of an `Optional[str]` query parameter: absent and "" are both false. */
  predicate Given(o: Option<string>) {
    o.Some? && o.value != ""
  }

  /** Library behaviour the handlers call but the model does not define:
      `ObjectId.is_valid`, `str()` of a stored identifier, `datetime.isoformat`
      and pydantic's `HttpUrl` check. */
  datatype Library = Library(
    isValidId: string -> bool,
    idText: Value -> string,
    isoText: Moment -> string,
    isHttpUrl: string -> bool)
}
