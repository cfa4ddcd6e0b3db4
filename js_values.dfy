/** The JavaScript values the worker manipulates: configuration trees, API bodies, task payloads. */
module JsValues {
  import opened Wrappers

  newtype byte = x: int | 0 <= x < 256
  type Bytes = seq<byte>

  /** A JavaScript value as far as the worker can observe it. Objects keep the insertion order of
      their own enumerable properties; numbers are integral (see README, "Left out"). */
  datatype Value =
    | Undefined
    | Null
    | Bool(b: bool)
    | Num(n: int)
    | Str(s: string)
    | Buf(bytes: Bytes)
    | Arr(items: seq<Value>)
    | Obj(props: seq<Prop>)

  datatype Prop = Prop(key: string, val: Value)

  /** A thrown JavaScript error: its constructor name and its message. */
  datatype Error = Error(name: string, message: string)

  /** JavaScript truthiness (the numbers here are integers, so NaN does not arise). */
  predicate Truthy(v: Value) {
    match v
    case Undefined => false
    case Null => false
    case Bool(b) => b
    case Num(n) => n != 0
    case Str(s) => s != ""
    case _ => true
  }

  /** The value of the first property named `key`, or `undefined`. */
  function Lookup(ps: seq<Prop>, key: string): (r: Value)
    ensures r != Undefined ==> exists i :: 0 <= i < |ps| && ps[i].key == key && ps[i].val == r
    ensures (forall i :: 0 <= i < |ps| ==> ps[i].key != key) ==> r == Undefined
  {
    if ps == [] then Undefined
    else if ps[0].key == key then ps[0].val
    else Lookup(ps[1..], key)
  }

  /** `v[key]` for an own property of an object; every other value has none of the
      properties the worker reads. */
  function Get(v: Value, key: string): Value {
    if v.Obj? then Lookup(v.props, key) else Undefined
  }

  /** `v[i]` for an array; out of range, or on a non-array, it is `undefined`. */
  function Index(v: Value, i: int): Value {
    if v.Arr? && 0 <= i < |v.items| then v.items[i] else Undefined
  }

  /** `v.key` as an expression: reading a property of `null` or `undefined` throws a TypeError. */
  function ReadProp(v: Value, key: string): (r: Result<Value, Error>)
    ensures r.Failure? <==> v.Null? || v.Undefined?
    ensures r.Failure? ==> r.error.name == "TypeError"
    ensures r.Success? ==> r.value == Get(v, key)
  {
    match v
    case Undefined => Failure(Error("TypeError", "Cannot read property '" + key + "' of undefined"))
    case Null => Failure(Error("TypeError", "Cannot read property '" + key + "' of null"))
    case _ => Success(Get(v, key))
  }

  function DigitChar(d: nat): char
    requires d < 10
  {
    (48 + d) as char
  }

  predicate IsDigit(c: char) {
    '0' <= c <= '9'
  }

  /** Decimal digits of a natural number, most significant first, without leading zeros. */
  function NatToDecimal(n: nat): (r: string)
    ensures r != [] && forall k :: 0 <= k < |r| ==> IsDigit(r[k])
    ensures |r| > 1 ==> r[0] != '0'
    decreases n
  {
    if n < 10 then [DigitChar(n)] else NatToDecimal(n / 10) + [DigitChar(n % 10)]
  }

  /** `String(n)` for an integer. */
  function IntToDecimal(n: int): string {
    if n < 0 then "-" + NatToDecimal(-n) else NatToDecimal(n)
  }

  /** The value of a string of decimal digits. */
  function DigitsValue(s: string): nat
    requires forall k :: 0 <= k < |s| ==> IsDigit(s[k])
    decreases |s|
  {
    if s == [] then 0
    else
      assert IsDigit(s[|s| - 1]);
      DigitsValue(s[..|s| - 1]) * 10 + (s[|s| - 1] as int - '0' as int)
  }

  /** `Number(s)` for an optionally signed string of decimal digits. */
  function ParseDecimal(s: string): int
    requires s != [] && s[0] == '-' ==> forall k :: 1 <= k < |s| ==> IsDigit(s[k])
    requires s != [] && s[0] != '-' ==> forall k :: 0 <= k < |s| ==> IsDigit(s[k])
  {
    if s != [] && s[0] == '-' then -(DigitsValue(s[1..]) as int) else DigitsValue(s)
  }

  lemma {:induction false} NatToDecimalRoundTrip(n: nat)
    ensures DigitsValue(NatToDecimal(n)) == n
    decreases n
  {
    var r := NatToDecimal(n);
    if n >= 10 {
      NatToDecimalRoundTrip(n / 10);
      assert r[..|r| - 1] == NatToDecimal(n / 10);
    }
  }

  /** Reading back the decimal text of an integer gives the integer: `Number(String(n)) == n`. */
  lemma IntToDecimalRoundTrip(n: int)
    ensures var s := IntToDecimal(n);
      (s != [] && s[0] == '-' ==> forall k :: 1 <= k < |s| ==> IsDigit(s[k])) &&
      (s != [] && s[0] != '-' ==> forall k :: 0 <= k < |s| ==> IsDigit(s[k])) &&
      ParseDecimal(s) == n
  {
    if n < 0 {
      NatToDecimalRoundTrip(-n);
      assert IntToDecimal(n)[1..] == NatToDecimal(-n);
    } else {
      NatToDecimalRoundTrip(n);
    }
  }

  /** `parts.join(sep)`. */
  function Join(parts: seq<string>, sep: string): string
    decreases |parts|
  {
    if parts == [] then ""
    else if |parts| == 1 then parts[0]
    else parts[0] + sep + Join(parts[1..], sep)
  }

  /** `String(v)`, also what a template literal `${v}` produces. A Buffer converts through
      UTF-8 decoding, which is the host's `utf8`; an array joins its elements with commas,
      writing `null` and `undefined` elements as empty strings. */
  function ToJsString(v: Value, utf8: Bytes -> string): string {
    match v
    case Undefined => "undefined"
    case Null => "null"
    case Bool(b) => if b then "true" else "false"
    case Num(n) => IntToDecimal(n)
    case Str(s) => s
    case Buf(bytes) => utf8(bytes)
    case Arr(items) =>
      Join(seq(|items|, i requires 0 <= i < |items| =>
                 if items[i].Null? || items[i].Undefined? then "" else ToJsString(items[i], utf8)), ",")
    case Obj(_) => "[object Object]"
  }

  /** `s.startsWith(prefix)`. */
  predicate StartsWith(s: string, prefix: string) {
    |prefix| <= |s| && s[..|prefix|] == prefix
  }
}
