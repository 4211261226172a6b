/**
 * The JavaScript values the transport inspects. The transport only asks a value
 * whether it is truthy, whether it is a function (`typeof v === 'function'`),
 * whether it is an `Error` (`v instanceof Error`), and, for an error, which
 * properties `for...in` visits and what `e[key]` reads.
 */
module JsValues {

  datatype Value =
    | Undefined
    | Null
    | Bool(b: bool)
    | Num(n: int)
    | Str(s: string)
    | Object(props: map<string, Value>)
    | ErrorObject(error: ErrorObj)
    | Function(id: nat)

  /**
   * An `Error` instance. `props` is every property `e[key]` can read, own or
   * inherited, with the prototype chain already resolved; `enumerable` is the
   * sequence of keys a `for...in` loop visits, in visiting order (own
   * enumerable fields such as `arg1`, and inherited enumerable ones such as a
   * `constructor` assigned on a custom prototype).
   */
  datatype ErrorObj = ErrorObj(props: map<string, Value>, enumerable: seq<string>)

  /** JavaScript truthiness: `undefined`, `null`, `false`, `0` and `""` are falsy. */
  predicate Truthy(v: Value)
  {
    match v
    case Undefined => false
    case Null => false
    case Bool(b) => b
    case Num(n) => n != 0
    case Str(s) => s != ""
    case _ => true
  }

  /** The value of `a || b`. */
  function Or(a: Value, b: Value): Value
  {
    if Truthy(a) then a else b
  }

  /** The value of `e[key]`; a missing property reads as `undefined`. */
  function Get(e: ErrorObj, key: string): Value
  {
    if key in e.props then e.props[key] else Undefined
  }

  /** `for...in` never visits a key twice. */
  predicate DistinctKeys(keys: seq<string>)
  {
    forall i, j :: 0 <= i < j < |keys| ==> keys[i] != keys[j]
  }
}
