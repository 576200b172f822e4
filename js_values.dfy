/**
 * JavaScript values as the proxy and the browser client see them: parsed JSON
 * plus `undefined`, with the few pieces of JavaScript semantics the app relies
 * on made explicit — truthiness and `||`, strict equality `===`, property
 * reads that throw on `null`/`undefined`, `String(v)` and `parseInt`.
 *
 * Numbers are modelled as mathematical integers: every number the app reads
 * (ids, status codes, periods, points, counting statistics) is integral.
 */
module Js {

  datatype Value =
    | Undefined
    | Null
    | Bool(b: bool)
    | Num(n: int)
    | Str(s: string)
    | Arr(items: seq<Value>)
    | Obj(fields: map<string, Value>)

  /** What a JavaScript `throw` carries in this app: a TypeError from reading
      a property of `null` or `undefined`. */
  datatype TypeError = ReadOfNullish(target: Value, property: string)

  datatype Option<+T> = None | Some(value: T)

  datatype Result<+T, +E> = Ok(value: T) | Err(error: E)

  /** JavaScript's ToBoolean: `undefined`, `null`, `false`, `0` and `""` are
      falsy; every array and object (even an empty one) is truthy. */
  predicate Truthy(v: Value) {
    match v
    case Undefined => false
    case Null => false
    case Bool(b) => b
    case Num(n) => n != 0
    case Str(s) => s != ""
    case Arr(_) => true
    case Obj(_) => true
  }

  predicate Nullish(v: Value) {
    v.Undefined? || v.Null?
  }

  /** `a || b`: the left operand when it is truthy, the right one otherwise. */
  function Or(a: Value, b: Value): Value {
    if Truthy(a) then a else b
  }

  /** `a === b`. Primitives compare by value; two arrays or objects are never
      identical here, because every one of them comes from its own JSON node. */
  predicate StrictEq(a: Value, b: Value) {
    match a
    case Undefined => b.Undefined?
    case Null => b.Null?
    case Bool(x) => b.Bool? && b.b == x
    case Num(x) => b.Num? && b.n == x
    case Str(x) => b.Str? && b.s == x
    case Arr(_) => false
    case Obj(_) => false
  }

  /** `v.key` on a value known not to be nullish: an own field of an object,
      `undefined` for anything else (none of the keys the app reads is a
      property of the built-in prototypes). */
  function Get(v: Value, key: string): Value {
    if v.Obj? && key in v.fields then v.fields[key] else Undefined
  }

  /** `v.key`, which throws a TypeError when `v` is `null` or `undefined`. */
  function Prop(v: Value, key: string): (r: Result<Value, TypeError>)
    ensures r.Err? <==> Nullish(v)
    ensures r.Ok? ==> r.value == Get(v, key)
  {
    if Nullish(v) then Err(ReadOfNullish(v, key)) else Ok(Get(v, key))
  }

  /** `v?.key`: `undefined` instead of a throw when `v` is nullish. */
  function OptionalGet(v: Value, key: string): Value {
    if Nullish(v) then Undefined else Get(v, key)
  }

  /** `row[i]` on an array: `undefined` past its end. */
  function At(row: seq<Value>, i: nat): Value {
    if i < |row| then row[i] else Undefined
  }

  // ---------------------------------------------------------------------
  // String(v) and decimal integers

  function DigitChar(d: nat): char
    requires d < 10
  {
    (('0' as int) + d) as char
  }

  /** The decimal digits of `n`, most significant first, without leading zeros. */
  function NatToString(n: nat): (r: string)
    ensures |r| >= 1
    ensures forall i :: 0 <= i < |r| ==> '0' <= r[i] <= '9'
  {
    if n < 10 then [DigitChar(n)] else NatToString(n / 10) + [DigitChar(n % 10)]
  }

  /** `String(n)` for an integer. */
  function IntToString(n: int): string {
    if n < 0 then "-" + NatToString(-n) else NatToString(n)
  }

  /** `String(v)`, as template literals and `parseInt` apply it. */
  function ToJsString(v: Value): string
    decreases v, 1
  {
    match v
    case Undefined => "undefined"
    case Null => "null"
    case Bool(b) => if b then "true" else "false"
    case Num(n) => IntToString(n)
    case Str(s) => s
    case Arr(items) => JoinFrom(v, 0)
    case Obj(_) => "[object Object]"
  }

  /** `Array.prototype.join(",")` from element `i` on: `null` and `undefined`
      elements print as "". */
  function JoinFrom(v: Value, i: nat): string
    requires v.Arr? && i <= |v.items|
    decreases v, 0, |v.items| - i
  {
    if i == |v.items| then ""
    else
      var e := v.items[i];
      var first := if Nullish(e) then "" else ToJsString(e);
      if i + 1 == |v.items| then first else first + "," + JoinFrom(v, i + 1)
  }

  // ---------------------------------------------------------------------
  // parseInt(string) with no radix argument

  /** The characters `parseInt` skips before the number: white space and
      line terminators of ECMAScript. */
  predicate IsJsWhiteSpace(c: char) {
    c == '\t' || c == '\n' || c == '\U{000B}' || c == '\U{000C}' || c == '\r' || c == ' '
    || c == '\U{00A0}' || c == '\U{1680}' || ('\U{2000}' <= c <= '\U{200A}')
    || c == '\U{2028}' || c == '\U{2029}' || c == '\U{202F}' || c == '\U{205F}'
    || c == '\U{3000}' || c == '\U{FEFF}'
  }

  function TrimStart(s: string): (r: string)
    ensures |r| <= |s|
    ensures |r| > 0 ==> !IsJsWhiteSpace(r[0])
  {
    if |s| > 0 && IsJsWhiteSpace(s[0]) then TrimStart(s[1..]) else s
  }

  /** The value of `c` as a digit of base `radix` (10 or 16), if it is one. */
  function DigitValue(c: char, radix: nat): (r: Option<nat>)
    ensures r.Some? ==> r.value < radix
  {
    if '0' <= c <= '9' && (c as int) - ('0' as int) < radix then Some((c as int) - ('0' as int))
    else if radix == 16 && 'a' <= c <= 'f' then Some((c as int) - ('a' as int) + 10)
    else if radix == 16 && 'A' <= c <= 'F' then Some((c as int) - ('A' as int) + 10)
    else None
  }

  /** Length of the longest prefix of `s` made of digits of base `radix`. */
  function DigitRun(s: string, radix: nat): (k: nat)
    ensures k <= |s|
    ensures forall i :: 0 <= i < k ==> DigitValue(s[i], radix).Some?
    ensures k < |s| ==> DigitValue(s[k], radix).None?
  {
    if |s| > 0 && DigitValue(s[0], radix).Some? then 1 + DigitRun(s[1..], radix) else 0
  }

  /** The number that a string of base-`radix` digits denotes. */
  function DigitsValue(s: string, radix: nat): nat
    requires forall i :: 0 <= i < |s| ==> DigitValue(s[i], radix).Some?
  {
    if |s| == 0 then 0
    else DigitsValue(s[..|s| - 1], radix) * radix + DigitValue(s[|s| - 1], radix).value
  }

  /** The digits after the sign of `parseInt`'s input, as a number: a
      `0x`/`0X` prefix switches to base 16, the longest run of digits that
      follows is the number, and no digit at all is `NaN` (`None`). */
  function ParseUnsigned(u: string): Option<nat> {
    var hex := |u| >= 2 && u[0] == '0' && (u[1] == 'x' || u[1] == 'X');
    var radix := if hex then 16 else 10;
    var body := if hex then u[2..] else u;
    var digits := body[..DigitRun(body, radix)];
    if |digits| == 0 then None else Some(DigitsValue(digits, radix))
  }

  /** `t` without one leading sign character. */
  function Unsigned(t: string): string {
    if |t| > 0 && (t[0] == '-' || t[0] == '+') then t[1..] else t
  }

  /** `parseInt(s)`: `None` stands for `NaN`. Leading white space is skipped,
      then one sign, then the digits as `ParseUnsigned` reads them. A
      negative zero is returned as 0, which is what the caller's `|| 0`
      makes of it anyway. */
  function ParseInt(s: string): (r: Option<int>)
    ensures var u := Unsigned(TrimStart(s));
      r.Some? ==> |u| > 0 && DigitValue(u[0], 10).Some?
    ensures var u := Unsigned(TrimStart(s));
      |u| > 0 && DigitValue(u[0], 10).Some? && !(|u| >= 2 && u[0] == '0' && (u[1] == 'x' || u[1] == 'X'))
      ==> r.Some?
    ensures r.Some? && r.value < 0 ==> TrimStart(s)[0] == '-'
  {
    var t := TrimStart(s);
    match ParseUnsigned(Unsigned(t))
    case None => None
    case Some(m) => Some(if |t| > 0 && t[0] == '-' then 0 - m else m)
  }

  /** `parseInt(v) || 0`: the integer that `v` spells, and 0 for `NaN`. */
  function ParseIntOrZero(v: Value): (n: int)
    ensures v.Num? ==> n == v.n
    ensures ParseInt(ToJsString(v)).None? ==> n == 0
  {
    assert v.Num? ==> ParseInt(ToJsString(v)) == Some(v.n) by {
      if v.Num? {
        ParseIntOfIntToString(v.n);
      }
    }
    match ParseInt(ToJsString(v))
    case None => 0
    case Some(n) => n
  }

  lemma {:induction false} NatToStringValue(n: nat)
    ensures DigitsValue(NatToString(n), 10) == n
  {
    if n >= 10 {
      NatToStringValue(n / 10);
      var s := NatToString(n);
      assert s == NatToString(n / 10) + [DigitChar(n % 10)];
      assert s[..|s| - 1] == NatToString(n / 10);
    }
  }

  lemma {:induction false} DigitRunAll(s: string, radix: nat)
    requires forall i :: 0 <= i < |s| ==> DigitValue(s[i], radix).Some?
    ensures DigitRun(s, radix) == |s|
  {
    if |s| > 0 {
      DigitRunAll(s[1..], radix);
    }
  }

  /** A run of decimal digits is read as the number the digits denote. */
  lemma ParseUnsignedDecimal(d: string)
    requires |d| >= 1 && forall i :: 0 <= i < |d| ==> '0' <= d[i] <= '9'
    ensures forall i :: 0 <= i < |d| ==> DigitValue(d[i], 10).Some?
    ensures ParseUnsigned(d) == Some(DigitsValue(d, 10))
  {
    DigitRunAll(d, 10);
    assert d[..DigitRun(d, 10)] == d;
  }

  /** The decimal digits of a natural number are read as that number. */
  lemma ParseUnsignedOfNat(m: nat)
    ensures ParseUnsigned(NatToString(m)) == Some(m)
  {
    ParseUnsignedDecimal(NatToString(m));
    NatToStringValue(m);
  }

  /** Input that starts with a digit is read by `parseInt` as its digits. */
  lemma ParseIntOfUnsigned(d: string, m: nat)
    requires |d| >= 1 && '0' <= d[0] <= '9' && ParseUnsigned(d) == Some(m)
    ensures ParseInt(d) == Some(m)
  {
    assert !IsJsWhiteSpace(d[0]);
    assert TrimStart(d) == d;
    assert Unsigned(d) == d;
  }

  /** The same input after a minus sign is read as its negation. */
  lemma ParseIntOfNegatedUnsigned(d: string, m: nat)
    requires |d| >= 1 && '0' <= d[0] <= '9' && ParseUnsigned(d) == Some(m)
    ensures ParseInt("-" + d) == Some(0 - m)
  {
    var s := "-" + d;
    assert TrimStart(s) == s;
    assert Unsigned(s) == d;
  }

  /** The digits of a natural number, read back by `parseInt`. */
  lemma ParseIntOfNatDigits(d: string, m: nat)
    requires d == NatToString(m)
    ensures ParseInt(d) == Some(m)
  {
    ParseUnsignedOfNat(m);
    ParseIntOfUnsigned(d, m);
  }

  /** A minus sign followed by the digits of `m`, read back by `parseInt`. */
  lemma ParseIntOfNegatedDigits(d: string, m: nat)
    requires d == NatToString(m)
    ensures ParseInt("-" + d) == Some(0 - m)
  {
    ParseUnsignedOfNat(m);
    ParseIntOfNegatedUnsigned(d, m);
  }

  /** `parseInt(String(n)) === n` for every integer `n`. */
  lemma ParseIntOfIntToString(n: int)
    ensures ParseInt(IntToString(n)) == Some(n)
  {
    if n < 0 {
      ParseIntOfNegatedDigits(NatToString(-n), -n);
    } else {
      ParseIntOfNatDigits(NatToString(n), n);
    }
  }

}
