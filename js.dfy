/** The slice of JavaScript semantics the handlers depend on: values as produced by
    `JSON.parse` and by object literals, truthiness and `||`, and property and index
    reads that throw on `null` and `undefined`. */
module Js {

  datatype Option<T> = None | Some(value: T)

  /** A JavaScript value. Objects are maps from property name to value; `Undefined`
      appears only in values built by the handlers (a missing property, an empty
      array's element 0), never in parsed JSON. */
  datatype Value =
    | Undefined
    | Null
    | Bool(b: bool)
    | Num(n: real)
    | Str(s: string)
    | Arr(items: seq<Value>)
    | Obj(fields: map<string, Value>)

  /** The completion of an expression that may throw: its value, or the message of the
      error it threw. */
  datatype Completion<T> = Normal(value: T) | Throw(message: string)

  /** JavaScript's ToBoolean: `undefined`, `null`, `false`, `0` and `""` are falsy. */
  predicate Truthy(v: Value)
  {
    match v
    case Undefined => false
    case Null => false
    case Bool(b) => b
    case Num(n) => n != 0.0
    case Str(s) => s != ""
    case Arr(_) => true
    case Obj(_) => true
  }

  predicate Nullish(v: Value)
  {
    v.Undefined? || v.Null?
  }

  /** `a || b` */
  function Or(a: Value, b: Value): Value
  {
    if Truthy(a) then a else b
  }

  /** `s || d` for strings: `s` unless it is empty. */
  function OrString(s: string, d: string): (r: string)
    ensures s != "" ==> r == s
    ensures s == "" ==> r == d
  {
    if s != "" then s else d
  }

  /** `a > 0` for the values a `length` property can hold; a string or an object
      compared with 0 is taken as not greater (numeric coercion is not modelled). */
  predicate Positive(v: Value)
  {
    match v
    case Num(n) => n > 0.0
    case Bool(b) => b
    case _ => false
  }

  /** A property name that is not an array index. */
  predicate IsName(key: string)
  {
    |key| > 0 && !('0' <= key[0] <= '9')
  }

  /** The TypeError message of the V8 engine for a property read on null or undefined. */
  function NullReadMessage(v: Value, key: string): string
    requires Nullish(v)
  {
    "Cannot read properties of " + (if v.Null? then "null" else "undefined") + " (reading '" + key + "')"
  }

  /** `v.key` for a named property. Arrays and strings have only `length` among the
      names the handlers read; every other primitive has none of them. */
  function Get(v: Value, key: string): (r: Completion<Value>)
    requires IsName(key)
    ensures r.Throw? <==> Nullish(v)
    ensures v.Obj? && key in v.fields ==> r == Normal(v.fields[key])
    ensures v.Obj? && key !in v.fields ==> r == Normal(Undefined)
  {
    match v
    case Undefined => Throw(NullReadMessage(v, key))
    case Null => Throw(NullReadMessage(v, key))
    case Arr(s) => Normal(if key == "length" then Num(|s| as real) else Undefined)
    case Str(s) => Normal(if key == "length" then Num(|s| as real) else Undefined)
    case Obj(m) => Normal(if key in m then m[key] else Undefined)
    case _ => Normal(Undefined)
  }

  /** `v.key` where `v` is known not to be null or undefined. */
  function Member(v: Value, key: string): Value
    requires IsName(key) && !Nullish(v)
  {
    Get(v, key).value
  }

  /** `v[i]`: an array element, a one-character string, or an object's property named
      by the decimal digits of `i`. */
  function At(v: Value, i: nat): (r: Completion<Value>)
    ensures r.Throw? <==> Nullish(v)
    ensures v.Arr? ==> r == Normal(if i < |v.items| then v.items[i] else Undefined)
  {
    match v
    case Undefined => Throw(NullReadMessage(v, NatToString(i)))
    case Null => Throw(NullReadMessage(v, NatToString(i)))
    case Arr(s) => Normal(if i < |s| then s[i] else Undefined)
    case Str(s) => Normal(if i < |s| then Str([s[i]]) else Undefined)
    case Obj(m) => var key := NatToString(i); Normal(if key in m then m[key] else Undefined)
    case _ => Normal(Undefined)
  }

  /** `s.substring(0, n)` */
  function Prefix(s: string, n: nat): (p: string)
    ensures |p| == if |s| < n then |s| else n
    ensures p <= s
  {
    s[..if |s| < n then |s| else n]
  }

  function Digit(d: nat): char
    requires d < 10
  {
    "0123456789"[d]
  }

  function DigitValue(c: char): nat
    requires '0' <= c <= '9'
  {
    (c as int - '0' as int) as nat
  }

  /** The decimal string JavaScript gives a non-negative integer (`${n}`). */
  function NatToString(n: nat): (s: string)
    ensures |s| > 0
    ensures forall k :: 0 <= k < |s| ==> '0' <= s[k] <= '9'
    ensures s[0] == '0' ==> n == 0
    decreases n
  {
    if n < 10 then [Digit(n)] else NatToString(n / 10) + [Digit(n % 10)]
  }

  /** Reads a string of decimal digits back as a number. */
  function ParseDecimal(s: string): nat
    requires forall k :: 0 <= k < |s| ==> '0' <= s[k] <= '9'
    decreases |s|
  {
    if s == [] then 0 else ParseDecimal(s[..|s| - 1]) * 10 + DigitValue(s[|s| - 1])
  }

  /** The decimal rendering loses nothing: reading it back gives the number. */
  lemma {:induction false} NatToStringRoundTrip(n: nat)
    ensures ParseDecimal(NatToString(n)) == n
    decreases n
  {
    var s := NatToString(n);
    if n >= 10 {
      NatToStringRoundTrip(n / 10);
      assert s[..|s| - 1] == NatToString(n / 10);
    }
  }
}
