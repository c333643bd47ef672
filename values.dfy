/** JavaScript values as the node handles them: JSON plus `undefined`.
    Numbers are integers here; the node never computes with fractions. */
module Values {

  datatype Option<+T> = None | Some(value: T)

  /** A computation of the node that either yields a value or throws an `Error` with a message. */
  datatype Result<+T> = Ok(value: T) | Err(message: string)

  datatype Value =
    | Undefined
    | Null
    | Bool(b: bool)
    | Num(n: int)
    | Str(s: string)
    | Arr(items: seq<Value>)
    | Obj(fields: map<string, Value>)

  /** A plain object (`IDataObject`): property name to value. */
  type Record = map<string, Value>

  /** JavaScript truthiness, as used by `if (v)`, `v && …` and `v || …`. */
  predicate Truthy(v: Value) {
    match v
    case Undefined => false
    case Null => false
    case Bool(b) => b
    case Num(n) => n != 0
    case Str(s) => s != ""
    case Arr(_) => true
    case Obj(_) => true
  }

  /** The only falsy values are `undefined`, `null`, `false`, `0` and `''`. */
  lemma FalsyValues(v: Value)
    ensures !Truthy(v) <==> v in [Undefined, Null, Bool(false), Num(0), Str("")]
  {
  }

  /** `r.key` on an object: `undefined` when the key is absent. */
  function Field(r: Record, key: string): (v: Value)
    ensures key !in r ==> v == Undefined
    ensures key in r ==> v == r[key]
  {
    if key in r then r[key] else Undefined
  }

  /** `v?.key`: the property of an object, `undefined` for a missing key or a value that is not an object. */
  function Prop(v: Value, key: string): (p: Value)
    ensures !v.Obj? ==> p == Undefined
    ensures v.Obj? ==> p == Field(v.fields, key)
  {
    if v.Obj? then Field(v.fields, key) else Undefined
  }

  /** `v?.length`: arrays and strings have one, an object has whatever its `length` property holds. */
  function JsLength(v: Value): (l: Value)
    ensures v.Arr? ==> l == Num(|v.items|)
    ensures v.Str? ==> l == Num(|v.s|)
    ensures !v.Arr? && !v.Str? && !v.Obj? ==> l == Undefined
  {
    match v
    case Arr(items) => Num(|items|)
    case Str(s) => Num(|s|)
    case Obj(f) => Field(f, "length")
    case _ => Undefined
  }

  /** The number a string of decimal digits denotes, most significant digit first. */
  function DigitsValue(s: string): nat
    decreases |s|
  {
    if s == [] then 0
    else
      var last := s[|s| - 1];
      10 * DigitsValue(s[..|s| - 1]) + (if '0' <= last <= '9' then last as int - '0' as int else 0)
  }

  /** Decimal digits of a natural number, most significant first, without leading zeros. */
  function NatString(n: nat): (s: string)
    ensures |s| >= 1
    ensures forall k :: 0 <= k < |s| ==> '0' <= s[k] <= '9'
    ensures DigitsValue(s) == n
    ensures s[0] == '0' ==> s == "0"
    decreases n
  {
    var digit := ['0' + (n % 10) as char];
    if n < 10 then digit
    else
      var prefix := NatString(n / 10);
      assert (prefix + digit)[..|prefix|] == prefix;
      prefix + digit
  }

  /** Template-literal conversion `${v}` (the `String` function). */
  function JsString(v: Value): string
    decreases v, 1
  {
    match v
    case Undefined => "undefined"
    case Null => "null"
    case Bool(b) => if b then "true" else "false"
    case Num(n) => if n < 0 then "-" + NatString(-n) else NatString(n)
    case Str(s) => s
    case Arr(items) => JoinElements(v, items)
    case Obj(_) => "[object Object]"
  }

  /** `Array.prototype.join(',')`, which writes `null` and `undefined` elements as empty strings. */
  function JoinElements(ghost whole: Value, items: seq<Value>): string
    requires forall k :: 0 <= k < |items| ==> items[k] < whole
    decreases whole, 0, |items|
  {
    if items == [] then ""
    else
      var first := if items[0] == Undefined || items[0] == Null then "" else JsString(items[0]);
      if |items| == 1 then first else first + "," + JoinElements(whole, items[1..])
  }
}
