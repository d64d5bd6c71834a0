/** The JSON-like values that the store holds and that the client and the server
    exchange, with the few pieces of JavaScript semantics the protocol relies on:
    truthiness, property reads, `a || b`, string conversion for path building and
    the shallow object merge of `extend-shallow`. */
module Values {

  datatype Option<+T> = None | Some(value: T)

  /** The outcome of a constructor that throws on bad configuration. */
  datatype Result<+T> = Ok(value: T) | Err(message: string)

  /** A JavaScript value as it can appear in the store. Numbers are modelled as
      integers; arrays are stored by the database as objects keyed by index. */
  datatype Value =
    | Undefined
    | Null
    | Bool(b: bool)
    | Num(n: int)
    | Str(s: string)
    | Obj(fields: map<string, Value>)

  /** The object literal `{}`. */
  const EmptyObj: Value := Obj(map[])

  /** The server-value sentinel `{'.sv': 'timestamp'}`; the store would replace it
      by its own clock, which the model keeps opaque. */
  const TIMESTAMP: Value := Obj(map[".sv" := Str("timestamp")])

  /** JavaScript truthiness (`if (v)`, `!v`, `v && …`). */
  predicate Truthy(v: Value) {
    match v
    case Undefined => false
    case Null => false
    case Bool(b) => b
    case Num(n) => n != 0
    case Str(s) => s != ""
    case Obj(_) => true
  }

  /** The property read `v.name`: `undefined` unless `v` is an object owning `name`. */
  function Get(v: Value, name: string): Value {
    if v.Obj? && name in v.fields then v.fields[name] else Undefined
  }

  /** `a || b` */
  function Or(a: Value, b: Value): (r: Value)
    ensures Truthy(a) ==> r == a
    ensures !Truthy(a) ==> r == b
  {
    if Truthy(a) then a else b
  }

  /** `extend(target, source)` from extend-shallow: every own key of `source` is
      copied onto `target`, overwriting keys already there; a source that is not
      an object contributes nothing. */
  function Extend(target: map<string, Value>, source: Value): (r: map<string, Value>)
    ensures r.Keys == target.Keys + (if source.Obj? then source.fields.Keys else {})
    ensures forall k :: k in r && source.Obj? && k in source.fields ==> r[k] == source.fields[k]
    ensures forall k :: k in r && !(source.Obj? && k in source.fields) ==> r[k] == target[k]
  {
    if source.Obj? then target + source.fields else target
  }

  /** `String(v)`, as used when a value is concatenated into a path. */
  function ToStr(v: Value): string {
    match v
    case Undefined => "undefined"
    case Null => "null"
    case Bool(b) => if b then "true" else "false"
    case Num(n) => if n < 0 then "-" + NatToStr(-n) else NatToStr(n)
    case Str(s) => s
    case Obj(_) => "[object Object]"
  }

  /** Decimal digits of a natural number. */
  function NatToStr(n: nat): (r: string)
    ensures |r| >= 1
    ensures forall i :: 0 <= i < |r| ==> '0' <= r[i] <= '9'
  {
    if n < 10 then [Digit(n)] else NatToStr(n / 10) + [Digit(n % 10)]
  }

  function Digit(d: nat): (c: char)
    requires d < 10
    ensures '0' <= c <= '9'
  {
    (('0' as int) + d) as char
  }
}
