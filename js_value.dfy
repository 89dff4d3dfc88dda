/**
 * The dynamically typed values that flow through the client: JSON documents
 * from the server, arguments of callbacks and the results promises carry.
 * Numbers are integers; a function value is known only by an identity.
 */
module JsValue {
  import opened Wrappers
  import opened Strings
  import OrderedMaps

  datatype Value =
    | Undefined
    | Null
    | Bool(b: bool)
    | Num(n: int)
    | Str(s: string)
    | Arr(items: seq<Value>)
    | Obj(fields: OrderedMaps.Entries<Value>)
    | Fn(id: nat)

  /** JavaScript truthiness: `undefined`, `null`, `false`, `0` and `""` are falsy. */
  predicate Truthy(v: Value)
  {
    match v
    case Undefined => false
    case Null => false
    case Bool(b) => b
    case Num(n) => n != 0
    case Str(s) => s != ""
    case _ => true
  }

  /** `a || b`. */
  function Or(a: Value, b: Value): (r: Value)
    ensures Truthy(a) ==> r == a
    ensures !Truthy(a) ==> r == b
  {
    if Truthy(a) then a else b
  }

  /** `o.key`: `undefined` when the key is absent or `o` is not an object. */
  function Field(o: Value, key: string): Value
  {
    if o.Obj? then OrderedMaps.Get(o.fields, key).UnwrapOr(Undefined) else Undefined
  }

  /** `typeof v === "function"`. */
  predicate IsFunction(v: Value)
  {
    v.Fn?
  }

  /** `typeof v === "object"`: `null`, arrays and objects. */
  predicate IsObjectType(v: Value)
  {
    v.Null? || v.Arr? || v.Obj?
  }

  /** `String(v)`, as used when a value is concatenated to a string. */
  function ToText(v: Value): string
  {
    match v
    case Undefined => "undefined"
    case Null => "null"
    case Bool(b) => if b then "true" else "false"
    case Num(n) => IntToString(n)
    case Str(s) => s
    case Arr(_) => "[array]"
    case Obj(_) => "[object Object]"
    case Fn(_) => "[function]"
  }

  /**
   * `Number(v)` as a relational comparison applies it; `None` is NaN. An
   * array converts through its text: empty is 0, two or more elements
   * hold a comma and are NaN, a single element converts as its own text.
   */
  function ToNumber(v: Value): Option<int>
  {
    match v
    case Undefined => None
    case Null => Some(0)
    case Bool(b) => Some(if b then 1 else 0)
    case Num(n) => Some(n)
    case Str(s) => TextToNumber(s)
    case Obj(_) => None
    case Fn(_) => None
    case Arr(items) =>
      if items == [] then Some(0)
      else if |items| > 1 then None
      else match items[0]
        case Undefined => Some(0)
        case Null => Some(0)
        case Bool(_) => None
        case Num(n) => Some(n)
        case Str(s) => TextToNumber(s)
        case Obj(_) => None
        case Fn(_) => None
        case Arr(_) => ToNumber(items[0])
  }

  /** `Number(s)` for the empty text (0) and unsigned decimal digits; any other text counts as NaN. */
  function TextToNumber(s: string): Option<int>
  {
    if s == "" then Some(0) else if AllDigits(s) then Some(DigitsValue(s)) else None
  }

  /** `a == b` (loose equality) on the values the client compares. */
  predicate LooseEquals(a: Value, b: Value)
  {
    match (a, b)
    case (Num(n), Str(s)) => NumericText(s, n)
    case (Str(s), Num(n)) => NumericText(s, n)
    case (Undefined, Null) => true
    case (Null, Undefined) => true
    case _ => a == b
  }

  /** `Number(s) === n` for strings of decimal digits (the empty string counts as 0). */
  predicate NumericText(s: string, n: int)
  {
    (s == "" && n == 0)
    || (n >= 0 && AllDigits(s) && DigitsValue(s) == n)
  }

  /** A number equals its own decimal text under `==`, whichever side it is on. */
  lemma LooseEqualsNumberAndText(n: nat)
    ensures LooseEquals(Num(n), Str(NatToString(n)))
    ensures LooseEquals(Str(NatToString(n)), Num(n))
  {
    DigitsValueOfNatToString(n);
  }
}
