/** JavaScript values and the handful of built-in JavaScript operations the
    dashboard leans on: truthiness and `||`, property reads with `?.`,
    `String(x)`, `toLowerCase`, `includes`, `split(c)[0]`, `padStart(2, "0")`,
    `parseInt(s, 10)` and `Number(s)`. */
module Js {

  datatype Option<+T> = None | Some(value: T)

  /** A JavaScript value as it occurs in backend responses and in the objects
      the dashboard builds. Numbers are integers: fractional numbers, NaN and
      the infinities never reach the modelled code paths as values. */
  datatype JsValue =
    | Undefined
    | Null
    | Bool(b: bool)
    | Num(n: int)
    | Str(s: string)
    | Arr(items: seq<JsValue>)
    | Obj(fields: map<string, JsValue>)

  /** JavaScript truthiness. */
  predicate Truthy(v: JsValue) {
    match v
    case Undefined => false
    case Null => false
    case Bool(b) => b
    case Num(n) => n != 0
    case Str(s) => s != ""
    case Arr(_) => true
    case Obj(_) => true
  }

  /** `a || b` */
  function Or(a: JsValue, b: JsValue): JsValue {
    if Truthy(a) then a else b
  }

  /** `a || b` on string-typed fields, where the empty string stands for both
      `""` and `undefined` (the two behave alike under `||`). */
  function OrElse(a: string, b: string): string {
    if a != "" then a else b
  }

  /** `v?.key`: reading a property; reading from anything but an object, or a
      key the object lacks, yields undefined. */
  function Get(v: JsValue, key: string): JsValue {
    if v.Obj? && key in v.fields then v.fields[key] else Undefined
  }

  /** `a === b` on primitives; two objects are never compared in the model. */
  predicate StrictEquals(a: JsValue, b: JsValue) {
    a == b
  }

  // ---------------------------------------------------------------------
  // Decimal digits

  predicate IsDigit(c: char) {
    '0' <= c <= '9'
  }

  predicate AllDigits(s: string) {
    forall i :: 0 <= i < |s| ==> IsDigit(s[i])
  }

  function DigitChar(d: nat): (c: char)
    requires d < 10
    ensures IsDigit(c)
  {
    ('0' as int + d) as char
  }

  function DigitValue(c: char): (d: nat)
    requires IsDigit(c)
    ensures d < 10 && DigitChar(d) == c
  {
    c as int - '0' as int
  }

  /** The decimal rendering of a natural number, as `String(n)` gives it. */
  function NatToString(n: nat): (s: string)
    ensures 1 <= |s| && AllDigits(s)
    ensures n < 10 <==> |s| == 1
    decreases n
  {
    if n < 10 then [DigitChar(n)] else NatToString(n / 10) + [DigitChar(n % 10)]
  }

  /** The value of a string of decimal digits. */
  function DigitsValue(s: string): nat
    requires AllDigits(s)
    decreases |s|
  {
    if s == [] then 0 else DigitsValue(s[..|s| - 1]) * 10 + DigitValue(s[|s| - 1])
  }

  /** Reading back a rendered natural number gives the number. */
  lemma {:induction false} NatToStringRoundTrip(n: nat)
    ensures DigitsValue(NatToString(n)) == n
    decreases n
  {
    if n >= 10 {
      var p := NatToString(n / 10);
      assert (p + [DigitChar(n % 10)])[..|p|] == p;
      NatToStringRoundTrip(n / 10);
    }
  }

  /** `String(i)` for an integer. */
  function IntToString(i: int): string {
    if i < 0 then "-" + NatToString(-i) else NatToString(i)
  }

  /** `String(v)`, as `setItem` and `toString()` apply it. */
  function ToStr(v: JsValue): string
    decreases v
  {
    match v
    case Undefined => "undefined"
    case Null => "null"
    case Bool(b) => if b then "true" else "false"
    case Num(n) => IntToString(n)
    case Str(s) => s
    case Arr(items) =>
      Join(seq(|items|, i requires 0 <= i < |items| =>
        if items[i].Undefined? || items[i].Null? then "" else ToStr(items[i])), ",")
    case Obj(_) => "[object Object]"
  }

  function Join(parts: seq<string>, sep: string): string
    decreases |parts|
  {
    if parts == [] then ""
    else if |parts| == 1 then parts[0]
    else parts[0] + sep + Join(parts[1..], sep)
  }

  // ---------------------------------------------------------------------
  // String operations

  /** `toLowerCase` on one character; only the ASCII letters are mapped. */
  function LowerChar(c: char): char {
    if 'A' <= c <= 'Z' then (c as int + 32) as char else c
  }

  function Lower(s: string): (r: string)
    ensures |r| == |s|
    ensures forall i :: 0 <= i < |s| ==> r[i] == LowerChar(s[i])
  {
    seq(|s|, i requires 0 <= i < |s| => LowerChar(s[i]))
  }

  /** `t` occurs in `s` starting at index `i`. */
  predicate OccursAt(s: string, t: string, i: int) {
    0 <= i <= |s| - |t| && s[i..i + |t|] == t
  }

  /** `s.includes(t)` */
  predicate Contains(s: string, t: string) {
    exists i | 0 <= i <= |s| - |t| :: OccursAt(s, t, i)
  }

  /** `s.split(c)[0]`: everything before the first `c`, or all of `s`. */
  function BeforeFirst(s: string, c: char): (r: string)
    ensures c !in r
    ensures r <= s
    ensures c !in s ==> r == s
    ensures c in s ==> |r| < |s| && s[|r|] == c
    decreases |s|
  {
    if s == [] then []
    else if s[0] == c then []
    else [s[0]] + BeforeFirst(s[1..], c)
  }

  /** `s.split(c)[1]`: the piece between the first and the second `c`,
      undefined when `s` has no `c`. */
  function SecondPiece(s: string, c: char): Option<string> {
    var head := BeforeFirst(s, c);
    if |head| == |s| then None else Some(BeforeFirst(s[|head| + 1..], c))
  }

  /** `split(c)[0]` of a `c`-free prefix followed by `c` is that prefix. */
  lemma {:induction false} BeforeFirstOfPrefix(a: string, c: char, rest: string)
    requires c !in a && rest != [] && rest[0] == c
    ensures BeforeFirst(a + rest, c) == a
    decreases |a|
  {
    if a != [] {
      assert (a + rest)[1..] == a[1..] + rest;
      BeforeFirstOfPrefix(a[1..], c, rest);
    } else {
      assert a + rest == rest;
    }
  }

  /** `s.padStart(2, "0")` */
  function PadStart2(s: string): (r: string)
    ensures |r| == if |s| < 2 then 2 else |s|
  {
    if |s| >= 2 then s else seq(2 - |s|, _ => '0') + s
  }

  // ---------------------------------------------------------------------
  // Numbers parsed from strings

  /** A JavaScript number as `parseInt` and `Number` produce it from text. */
  datatype Number = Finite(n: int) | NaN

  predicate NumberTruthy(x: Number) {
    x.Finite? && x.n != 0
  }

  /** `String(x)` */
  function NumberToString(x: Number): string {
    match x
    case Finite(n) => IntToString(n)
    case NaN => "NaN"
  }

  predicate IsSpace(c: char) {
    c == ' ' || c == '\t' || c == '\n' || c == '\r'
  }

  function TrimStart(s: string): (r: string)
    ensures |r| <= |s|
    ensures r == [] || !IsSpace(r[0])
    decreases |s|
  {
    if s != [] && IsSpace(s[0]) then TrimStart(s[1..]) else s
  }

  function TrimEnd(s: string): (r: string)
    decreases |s|
  {
    if s != [] && IsSpace(s[|s| - 1]) then TrimEnd(s[..|s| - 1]) else s
  }

  /** The longest prefix of `s` made of decimal digits. */
  function LeadingDigits(s: string): (r: string)
    ensures AllDigits(r) && r <= s
    ensures |r| < |s| ==> !IsDigit(s[|r|])
    decreases |s|
  {
    if s != [] && IsDigit(s[0]) then [s[0]] + LeadingDigits(s[1..]) else []
  }

  function Signed(negative: bool, m: nat): int {
    if negative then -(m as int) else m
  }

  /** `parseInt(s, 10)`: leading blanks, an optional sign, then as many
      digits as there are; NaN when there are none. */
  function ParseInt(s: string): Number {
    var t := TrimStart(s);
    var negative := t != [] && t[0] == '-';
    var body := if t != [] && (t[0] == '-' || t[0] == '+') then t[1..] else t;
    var digits := LeadingDigits(body);
    if digits == [] then NaN else Finite(Signed(negative, DigitsValue(digits)))
  }

  /** `Number(s)` for decimal integers: blanks around are ignored, the empty
      string is 0, an optional sign followed by digits is that integer, and
      everything else is NaN. */
  function ToNumber(s: string): Number {
    var t := TrimEnd(TrimStart(s));
    if t == [] then Finite(0)
    else
      var negative := t[0] == '-';
      var body := if t[0] == '-' || t[0] == '+' then t[1..] else t;
      if body != [] && AllDigits(body) then Finite(Signed(negative, DigitsValue(body))) else NaN
  }

  /** The digits of an all-digit string are all leading digits. */
  lemma {:induction false} LeadingDigitsOfDigits(s: string)
    requires AllDigits(s)
    ensures LeadingDigits(s) == s
    decreases |s|
  {
    if s != [] {
      LeadingDigitsOfDigits(s[1..]);
    }
  }

  /** `parseInt` of an optional minus sign followed by digits. */
  lemma ParseIntOfDigits(negative: bool, digits: string)
    requires digits != [] && AllDigits(digits)
    ensures ParseInt((if negative then "-" else "") + digits) == Finite(Signed(negative, DigitsValue(digits)))
  {
    var s := (if negative then "-" else "") + digits;
    assert s[0] == (if negative then '-' else digits[0]);
    assert !IsSpace(s[0]);
    assert TrimStart(s) == s;
    var body := if s[0] == '-' || s[0] == '+' then s[1..] else s;
    assert body == digits;
    LeadingDigitsOfDigits(digits);
  }

  /** `parseInt(String(i), 10)` gives back the integer `i`: an id stored as
      text reads back as the number it was. */
  lemma {:induction false} ParseIntRoundTrip(i: int)
    ensures ParseInt(IntToString(i)) == Finite(i)
  {
    var m: nat := if i < 0 then -i else i;
    NatToStringRoundTrip(m);
    ParseIntOfDigits(i < 0, NatToString(m));
    assert IntToString(i) == (if i < 0 then "-" else "") + NatToString(m);
  }
}
