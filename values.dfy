/** JSON-like values exchanged with the worker, and the stock Option/Result wrappers. */
module PyValues {

  datatype Option<+T> = None | Some(value: T)

  datatype Result<+T, +E> = Ok(value: T) | Err(error: E)

  /** A JSON-like value: what the worker sends back and what host tools return.
      Floating-point numbers are not modelled; numbers are integers. */
  datatype Value =
    | Null
    | Bool(b: bool)
    | Num(n: int)
    | Str(s: string)
    | Arr(items: seq<Value>)
    | Obj(fields: map<string, Value>)

  /** A Python dict with string keys, such as a response's structured content. */
  type Dict = map<string, Value>

  /** Python truthiness of a value (`if v:`). */
  predicate Truthy(v: Value)
  {
    match v
    case Null => false
    case Bool(b) => b
    case Num(n) => n != 0
    case Str(s) => s != []
    case Arr(xs) => xs != []
    case Obj(m) => m != map[]
  }

  /** `d.get(k, default)`. */
  function Get(d: Dict, k: string, default: Value): Value
  {
    if k in d then d[k] else default
  }

  /** Decimal digits of a natural number. */
  function Digits(n: nat): string
    decreases n
  {
    var d := ['0', '1', '2', '3', '4', '5', '6', '7', '8', '9'][n % 10];
    if n < 10 then [d] else Digits(n / 10) + [d]
  }

  /** Python's `str(v)` for scalar values. Lists and dicts are rendered as
      `[...]` and `{...}` only: their Python repr is not modelled. */
  function Render(v: Value): string
  {
    match v
    case Null => "None"
    case Bool(b) => if b then "True" else "False"
    case Num(n) => if n < 0 then "-" + Digits(-n) else Digits(n)
    case Str(s) => s
    case Arr(_) => "[...]"
    case Obj(_) => "{...}"
  }
}
