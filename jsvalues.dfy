/** Values of the JavaScript runtime as the monitor sees them: everything
    `JSON.parse` can produce, plus `undefined` for a property that is absent.
    Records read from and written to the store are plain objects. */
module JsValues {

  datatype Option<+T> = None | Some(value: T)

  datatype Value =
    | Undefined
    | Null
    | Bool(b: bool)
    | Num(n: real)
    | Str(s: string)
    | Arr(items: seq<Value>)
    | Obj(fields: map<string, Value>)

  /** A plain JavaScript object, keyed by property name. */
  type Record = map<string, Value>

  /** JavaScript truthiness (`if (v)`, `v || w`, `v && w`). */
  predicate Truthy(v: Value) {
    match v
    case Undefined => false
    case Null => false
    case Bool(b) => b
    case Num(n) => n != 0.0
    case Str(s) => s != ""
    case _ => true
  }

  /** `a || b`: the first operand when it is truthy, the second otherwise. */
  function Or(a: Value, b: Value): (r: Value)
    ensures Truthy(a) ==> r == a
    ensures !Truthy(a) ==> r == b
  {
    if Truthy(a) then a else b
  }

  /** `r.key`: an absent property reads as `undefined`. */
  function Prop(r: Record, key: string): Value {
    if key in r then r[key] else Undefined
  }

  /** `r.key = v`. A property holding `undefined` does not survive
      `JSON.stringify`, so it is dropped here. */
  function SetProp(r: Record, key: string, v: Value): (r': Record)
    ensures Prop(r', key) == v
    ensures forall k :: k != key ==> Prop(r', k) == Prop(r, k)
    ensures r'.Keys <= r.Keys + {key}
  {
    if v.Undefined? then r - {key} else r[key := v]
  }

  /** `x % 1 === 0` for a finite number. */
  predicate IsInteger(x: real) {
    x.Floor as real == x
  }

  /** A JavaScript number holding an integer. */
  function Int(n: int): Value {
    Num(n as real)
  }
}
