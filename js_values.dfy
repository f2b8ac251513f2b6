/** JavaScript values as the sentry node reads them: the fields of a Node-RED
    message, of an error record and of the per-message configuration. */
module JsValues {

  /** A JavaScript value. Numbers are integral; objects are their own
      enumerable string-keyed properties. */
  datatype JsValue =
    | Undefined
    | Null
    | Bool(b: bool)
    | Num(n: int)
    | Str(s: string)
    | Arr(elems: seq<JsValue>)
    | Obj(props: map<string, JsValue>)

  /** The answer of the `typeof` operator for the values above. */
  datatype JsType = UndefinedType | ObjectType | BooleanType | NumberType | StringType

  function TypeOf(v: JsValue): JsType {
    match v
    case Undefined => UndefinedType
    case Null => ObjectType   // typeof null === 'object'
    case Bool(_) => BooleanType
    case Num(_) => NumberType
    case Str(_) => StringType
    case Arr(_) => ObjectType
    case Obj(_) => ObjectType
  }

  /** Reading a property of these two throws a TypeError. */
  predicate IsNullish(v: JsValue) {
    v.Undefined? || v.Null?
  }

  /** Truthiness, as tested by `a && b`. */
  predicate Truthy(v: JsValue) {
    match v
    case Undefined => false
    case Null => false
    case Bool(b) => b
    case Num(n) => n != 0
    case Str(s) => s != ""
    case Arr(_) => true
    case Obj(_) => true
  }

  /** The property read `v.key` on a value that is neither null nor undefined.
      The node only reads named properties (never an array index or `length`),
      and those are undefined on every value but an object that owns them. */
  function Get(v: JsValue, key: string): JsValue
    requires !IsNullish(v)
  {
    match v
    case Obj(props) => if key in props then props[key] else Undefined
    case _ => Undefined
  }

  /** `Object.keys(v).length` for an array or an object. */
  function OwnKeyCount(v: JsValue): nat
    requires v.Arr? || v.Obj?
  {
    if v.Arr? then |v.elems| else |v.props|
  }

  /** The text a template literal `${v}` substitutes for `v`. */
  function ToText(v: JsValue): string
    decreases v
  {
    match v
    case Undefined => "undefined"
    case Null => "null"
    case Bool(b) => if b then "true" else "false"
    case Num(n) => if n < 0 then "-" + Decimal(-n) else Decimal(n)
    case Str(s) => s
    case Arr(es) => JoinText(v, |es|)
    case Obj(_) => "[object Object]"
  }

  /** `a.join(",")` over the first `n` elements of the array `a`: null and
      undefined elements contribute the empty string. */
  function JoinText(a: JsValue, n: nat): string
    requires a.Arr? && n <= |a.elems|
    decreases a, n
  {
    if n == 0 then ""
    else
      var last := a.elems[n - 1];
      var text := if IsNullish(last) then "" else ToText(last);
      if n == 1 then text else JoinText(a, n - 1) + "," + text
  }

  /** The decimal digits of `n`, most significant first, with no leading zero. */
  function Decimal(n: nat): (r: string)
    ensures |r| > 0
    ensures forall i :: 0 <= i < |r| ==> '0' <= r[i] <= '9'
  {
    var digit := [(48 + n % 10) as char];
    if n < 10 then digit else Decimal(n / 10) + digit
  }

  /** The exception the node can run into: a property read on `null`
      ("Cannot read properties of null (reading '<reading>')"). */
  datatype Thrown = TypeError(reading: string)

  /** How an evaluation ends: with a value, or by throwing. */
  datatype Completion<T> = Normal(value: T) | Throw(error: Thrown)

  datatype Option<T> = None | Some(value: T)
}
