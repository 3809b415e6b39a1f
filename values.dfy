/** JavaScript values as the change-capture pipeline sees them: plain objects
    are maps from property names to values, and a missing property reads as
    `undefined`. */
module JsValues {

  datatype Option<+T> = None | Some(value: T)

  datatype Value =
    | Undefined
    | Null
    | Bool(b: bool)
    | Num(n: int)
    | Str(s: string)
    | Arr(items: seq<Value>)
    | Obj(fields: map<string, Value>)

  /** A plain object, such as an entity snapshot or an audit payload. */
  type Record = map<string, Value>

  /** JavaScript truthiness (`!!v`). */
  predicate Truthy(v: Value)
  {
    match v
    case Undefined => false
    case Null => false
    case Bool(b) => b
    case Num(n) => n != 0
    case Str(s) => s != ""
    case Arr(_) => true
    case Obj(_) => true
  }

  /** `o[k]` on a plain object. */
  function Get(o: Record, k: string): Value
  {
    if k in o then o[k] else Undefined
  }

  /** `v[k]`: None where JavaScript throws a TypeError (reading a property of
      `null` or `undefined`); a property of any other primitive reads as
      `undefined`. */
  function Prop(v: Value, k: string): Option<Value>
  {
    match v
    case Undefined => None
    case Null => None
    case Obj(m) => Some(Get(m, k))
    case _ => Some(Undefined)
  }

  /** `v[k]` where `v` is known to be truthy, so the access cannot throw. */
  function Dot(v: Value, k: string): Value
  {
    match Prop(v, k)
    case Some(w) => w
    case None => Undefined
  }

  /** `v[k0][k1]...` inside a `try`: None when some step throws. */
  function Path(v: Value, ks: seq<string>): Option<Value>
    decreases |ks|
  {
    if ks == [] then Some(v)
    else
      match Prop(v, ks[0])
      case None => None
      case Some(w) => Path(w, ks[1..])
  }
}
