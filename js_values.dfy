/** JavaScript values as they arrive in JSON request bodies and query strings,
    with the coercions the routes apply to them: truthiness, `||` defaults,
    `parseInt`, `Number` and conversion to a string in a template literal. */
module Js {
  import opened Wrappers
  import opened Strings

  /** A JSON scalar (or a missing field). Only integral numbers are modelled. */
  datatype JsValue = Undefined | Null | Bool(b: bool) | Num(n: int) | Str(s: string)

  /** `!!v` */
  predicate Truthy(v: JsValue) {
    match v
    case Undefined => false
    case Null => false
    case Bool(b) => b
    case Num(n) => n != 0
    case Str(s) => s != ""
  }

  /** `!!o` for an optional string field: present and not empty. */
  predicate Filled(o: Option<string>) {
    o.Some? && o.value != ""
  }

  /** `o || fallback` for an optional string field. */
  function Or(o: Option<string>, fallback: string): (r: string)
    ensures Filled(o) ==> r == o.value
    ensures !Filled(o) ==> r == fallback
  {
    if Filled(o) then o.value else fallback
  }

  /** `o || null`: an empty string is dropped. */
  function Nonempty(o: Option<string>): (r: Option<string>)
    ensures r.Some? <==> Filled(o)
    ensures r.Some? ==> r == o
  {
    if Filled(o) then o else None
  }

  // ---------------------------------------------------------------------------
  // Digits

  predicate IsDecimalDigit(c: char) { '0' <= c <= '9' }

  predicate IsHexDigit(c: char) {
    IsDecimalDigit(c) || ('a' <= c <= 'f') || ('A' <= c <= 'F')
  }

  function DigitValue(c: char): (d: nat)
    requires IsHexDigit(c)
    ensures d < 16
    ensures IsDecimalDigit(c) ==> d < 10
  {
    if IsDecimalDigit(c) then c as int - '0' as int
    else if 'a' <= c <= 'f' then c as int - 'a' as int + 10
    else c as int - 'A' as int + 10
  }

  predicate IsDigitOf(c: char, radix: nat) {
    if radix == 16 then IsHexDigit(c) else IsDecimalDigit(c)
  }

  predicate AllDigits(s: string, radix: nat)
    requires radix == 10 || radix == 16
  {
    forall i :: 0 <= i < |s| ==> IsDigitOf(s[i], radix)
  }

  /** The longest prefix of `s` made of digits of the radix. */
  function DigitPrefix(s: string, radix: nat): (p: string)
    requires radix == 10 || radix == 16
    ensures |p| <= |s| && p == s[..|p|]
    ensures AllDigits(p, radix)
    ensures |p| < |s| ==> !IsDigitOf(s[|p|], radix)
  {
    if |s| > 0 && IsDigitOf(s[0], radix) then
      [s[0]] + DigitPrefix(s[1..], radix)
    else ""
  }

  /** The number a string of digits denotes, most significant first. */
  function DigitsValue(s: string, radix: nat): nat
    requires radix == 10 || radix == 16
    requires AllDigits(s, radix)
  {
    if |s| == 0 then 0
    else DigitsValue(s[..|s| - 1], radix) * radix + DigitValue(s[|s| - 1])
  }

  // ---------------------------------------------------------------------------
  // Printing

  function DigitChar(d: nat): (c: char)
    requires d < 10
    ensures IsDecimalDigit(c) && DigitValue(c) == d
  {
    ('0' as int + d) as char
  }

  /** The decimal digits of a natural number, without leading zeros. */
  function NatDigits(m: nat): (s: string)
    ensures |s| >= 1 && AllDigits(s, 10)
    ensures m > 0 ==> s[0] != '0'
  {
    if m < 10 then [DigitChar(m)] else NatDigits(m / 10) + [DigitChar(m % 10)]
  }

  /** `String(n)` for an integer. */
  function Decimal(n: int): (s: string)
    ensures |s| >= 1
  {
    if n < 0 then "-" + NatDigits(-n) else NatDigits(n)
  }

  /** `${v}` in a template literal. */
  function Display(v: JsValue): string {
    match v
    case Undefined => "undefined"
    case Null => "null"
    case Bool(b) => if b then "true" else "false"
    case Num(n) => Decimal(n)
    case Str(s) => s
  }

  lemma {:induction false} NatDigitsValue(m: nat)
    ensures DigitsValue(NatDigits(m), 10) == m
  {
    if m >= 10 {
      NatDigitsValue(m / 10);
      var s := NatDigits(m);
      assert s[..|s| - 1] == NatDigits(m / 10);
    }
  }

  lemma DigitPrefixOfDigits(s: string)
    requires AllDigits(s, 10)
    ensures DigitPrefix(s, 10) == s
  {
  }

  // ---------------------------------------------------------------------------
  // Parsing

  /** The sign of a numeral and the text after it. */
  function SignAndRest(t: string): (bool, string) {
    if |t| > 0 && (t[0] == '-' || t[0] == '+') then (t[0] == '-', t[1..]) else (false, t)
  }

  predicate HasHexPrefix(u: string) {
    |u| >= 2 && u[0] == '0' && (u[1] == 'x' || u[1] == 'X')
  }

  /** `parseInt(s)`: leading white space and a sign are skipped, a `0x` prefix
      switches to base 16, then the longest run of digits is read; no digits
      at all gives `None` (NaN). */
  function ParseInt(s: string): (r: Option<int>)
  {
    var (negative, u) := SignAndRest(TrimStart(s));
    var radix := if HasHexPrefix(u) then 16 else 10;
    var digits := DigitPrefix(if radix == 16 then u[2..] else u, radix);
    if digits == "" then None
    else
      var m: int := DigitsValue(digits, radix);
      Some(if negative then -m else m)
  }

  function Abs(n: int): nat { if n < 0 then -n else n }

  /** A printed integer: its sign, then its digits, and no white space. */
  lemma DecimalShape(n: int)
    ensures SignAndRest(Decimal(n)) == (n < 0, NatDigits(Abs(n)))
    ensures Trim(Decimal(n)) == Decimal(n) && TrimStart(Decimal(n)) == Decimal(n)
  {
    var s := Decimal(n);
    var digits := NatDigits(Abs(n));
    assert IsDecimalDigit(digits[0]) && IsDecimalDigit(digits[|digits| - 1]);
    assert s[0] == '-' || s[0] == digits[0];
    assert s[|s| - 1] == digits[|digits| - 1];
    assert !IsWhiteSpace(s[0]) && !IsWhiteSpace(s[|s| - 1]);
    if n < 0 {
      assert s[1..] == digits;
    }
  }

  /** `parseInt` reads back what `String` prints. */
  lemma ParseIntDecimal(n: int)
    ensures ParseInt(Decimal(n)) == Some(n)
  {
    var digits := NatDigits(Abs(n));
    NatDigitsValue(Abs(n));
    DigitPrefixOfDigits(digits);
    DecimalShape(n);
    assert !HasHexPrefix(digits) by {
      if |digits| >= 2 { assert IsDecimalDigit(digits[1]); }
    }
  }

  /** A numeric value as `Number(...)` yields it: an integer or anything else
      (NaN, fractions, exponents). */
  datatype NumberValue = Integer(i: int) | NotInteger

  /** `Number(s)` for a string, restricted to decimal integers: surrounding
      white space is ignored, the empty string is 0, other forms are
      `NotInteger`. */
  function StringToNumber(s: string): (r: NumberValue)
    ensures AllWhiteSpace(s) ==> r == Integer(0)
  {
    var t := Trim(s);
    TrimEmptyIff(s);
    if t == "" then Integer(0)
    else
      var (negative, u) := SignAndRest(t);
      if u != "" && AllDigits(u, 10) then
        var m: int := DigitsValue(u, 10);
        Integer(if negative then -m else m)
      else NotInteger
  }

  /** `Number(v)` */
  function ToNumber(v: JsValue): (r: NumberValue)
    ensures v.Num? ==> r == Integer(v.n)
  {
    match v
    case Undefined => NotInteger
    case Null => Integer(0)
    case Bool(b) => Integer(if b then 1 else 0)
    case Num(n) => Integer(n)
    case Str(s) => StringToNumber(s)
  }

  /** `Number` reads back what `String` prints. */
  lemma ToNumberDecimal(n: int)
    ensures ToNumber(Str(Decimal(n))) == Integer(n)
  {
    NatDigitsValue(Abs(n));
    DecimalShape(n);
  }
}
