/** Decoded JSON values, as Python's `json.loads` hands them to the sensor loop. */
module Json {
  import Decimal

  /** A JSON value. An integer literal decodes to `Int`; a number with a fraction or an
      exponent decodes to a Python float, `Float(x, repr)`, where `repr` is Python's own
      text for that float (used when the value is formatted into a sentence). */
  datatype Value =
    | Null
    | Bool(b: bool)
    | Int(i: int)
    | Float(x: real, repr: string)
    | Str(s: string)
    | Arr(items: seq<Value>)
    | Obj(fields: map<string, Value>)

  /** The values Python's `<` and `>` will compare with an int (bool is a subtype of
      int); comparing any other value with an int raises TypeError. */
  predicate IsNumber(v: Value) {
    v.Bool? || v.Int? || v.Float?
  }

  /** The numeric value Python compares: True is 1 and False is 0. */
  function NumberValue(v: Value): real
    requires IsNumber(v)
  {
    match v
    case Bool(b) => if b then 1.0 else 0.0
    case Int(i) => i as real
    case Float(x, _) => x
  }

  /** What `f"{v}"` writes for a number. */
  function Show(v: Value): string
    requires IsNumber(v)
  {
    match v
    case Bool(b) => if b then "True" else "False"
    case Int(i) => Decimal.IntToString(i)
    case Float(_, repr) => repr
  }
}
