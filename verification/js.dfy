/**
 * The fragment of JavaScript value semantics that the survey client relies on:
 * truthiness, `||` defaulting, property lookup on plain objects, `parseInt`,
 * `Math.max`/`Math.min` clamping and loose equality (`==`).
 *
 * Numbers are integers only: the client never produces fractional values on
 * the paths modelled here, and NaN is represented by `None` where `parseInt`
 * can produce it.
 */
module Js {

  datatype Option<+T> = None | Some(value: T)

  /** A primitive JavaScript value as it appears in form data and records. */
  datatype JsValue =
    | Undefined
    | Null
    | Bool(b: bool)
    | Num(n: int)
    | Str(s: string)

  /** A plain JavaScript object: its own enumerable properties. */
  type Object = map<string, JsValue>

  /** JavaScript's ToBoolean: undefined, null, false, 0 and '' are falsy. */
  predicate Truthy(v: JsValue) {
    match v
    case Undefined => false
    case Null => false
    case Bool(b) => b
    case Num(n) => n != 0
    case Str(s) => s != ""
  }

  /** `a || b`: the left operand when it is truthy, the right one otherwise. */
  function Or(a: JsValue, b: JsValue): (r: JsValue)
    ensures Truthy(a) ==> r == a
    ensures !Truthy(a) ==> r == b
    ensures Truthy(r) <==> Truthy(a) || Truthy(b)
  {
    if Truthy(a) then a else b
  }

  /** `o[key]`: a missing property reads as undefined. */
  function Get(o: Object, key: string): (r: JsValue)
    ensures key !in o ==> r == Undefined
    ensures key in o ==> r == o[key]
  {
    if key in o then o[key] else Undefined
  }

  // ---------------------------------------------------------------------
  // Number <-> decimal string
  // ---------------------------------------------------------------------

  predicate IsDigit(c: char) {
    '0' <= c <= '9'
  }

  function DigitValue(c: char): (d: nat)
    requires IsDigit(c)
    ensures d < 10
  {
    (c as int) - ('0' as int)
  }

  function DigitChar(d: nat): (c: char)
    requires d < 10
    ensures IsDigit(c) && DigitValue(c) == d
  {
    (('0' as int) + d) as char
  }

  /** The decimal digits of a natural number, most significant first. */
  function NatToDigits(n: nat): (s: string)
    ensures |s| > 0
    ensures forall i :: 0 <= i < |s| ==> IsDigit(s[i])
    decreases n
  {
    if n < 10 then [DigitChar(n)] else NatToDigits(n / 10) + [DigitChar(n % 10)]
  }

  /** JavaScript's Number::toString for an integer value. */
  function NumberToString(n: int): (s: string)
    ensures |s| > 0
    ensures n >= 0 ==> forall i :: 0 <= i < |s| ==> IsDigit(s[i])
    ensures n < 0 ==> s[0] == '-'
  {
    if n < 0 then "-" + NatToDigits(-n) else NatToDigits(n)
  }

  /** Length of the longest prefix of `s` made of decimal digits. */
  function DigitPrefixLength(s: string): (k: nat)
    ensures k <= |s|
    ensures forall i :: 0 <= i < k ==> IsDigit(s[i])
    ensures k < |s| ==> !IsDigit(s[k])
  {
    if |s| == 0 || !IsDigit(s[0]) then 0 else 1 + DigitPrefixLength(s[1..])
  }

  /** The value of a string of decimal digits, most significant first. */
  function DigitsValue(s: string): nat
    requires forall i :: 0 <= i < |s| ==> IsDigit(s[i])
  {
    if |s| == 0 then 0 else DigitsValue(s[..|s| - 1]) * 10 + DigitValue(s[|s| - 1])
  }

  /**
   * `parseInt` on a string, base 10: an optional sign followed by the longest
   * run of decimal digits; no digit at all gives NaN, shown here as None.
   */
  function ParseIntString(s: string): (r: Option<int>)
    ensures r.None? <==> DigitPrefixLength(if |s| > 0 && (s[0] == '-' || s[0] == '+') then s[1..] else s) == 0
  {
    var negative := |s| > 0 && s[0] == '-';
    var body := if |s| > 0 && (s[0] == '-' || s[0] == '+') then s[1..] else s;
    var k := DigitPrefixLength(body);
    if k == 0 then None
    else
      var magnitude: int := DigitsValue(body[..k]);
      Some(if negative then -magnitude else magnitude)
  }

  /**
   * `parseInt(v)`: the argument is first converted to a string, so
   * undefined, null, true and false all give NaN.
   */
  function ParseInt(v: JsValue): (r: Option<int>)
    ensures v.Str? ==> r == ParseIntString(v.s)
    ensures v.Undefined? || v.Null? || v.Bool? ==> r.None?
  {
    match v
    case Undefined => None
    case Null => None
    case Bool(_) => None
    case Num(n) => ParseIntString(NumberToString(n))
    case Str(s) => ParseIntString(s)
  }

  lemma {:induction false} DigitPrefixOfDigits(s: string)
    requires forall i :: 0 <= i < |s| ==> IsDigit(s[i])
    ensures DigitPrefixLength(s) == |s|
  {
    if |s| > 0 {
      DigitPrefixOfDigits(s[1..]);
    }
  }

  lemma {:induction false} NatToDigitsValue(n: nat)
    ensures DigitsValue(NatToDigits(n)) == n
    decreases n
  {
    if n >= 10 {
      var s := NatToDigits(n);
      NatToDigitsValue(n / 10);
      assert s[..|s| - 1] == NatToDigits(n / 10);
    }
  }

  /** Round trip: `parseInt` of a number gives the number back. */
  lemma ParseIntOfNumber(n: int)
    ensures ParseInt(Num(n)) == Some(n)
  {
    var m: nat := if n < 0 then -n else n;
    var digits := NatToDigits(m);
    DigitPrefixOfDigits(digits);
    NatToDigitsValue(m);
    assert digits[..|digits|] == digits;
    if n < 0 {
      assert ("-" + digits)[1..] == digits;
    }
  }

  /** `parseInt(v) || fallback`: NaN and 0 both give way to the fallback. */
  function ParseIntOr(v: JsValue, fallback: int): (r: int)
    ensures (ParseInt(v).None? || ParseInt(v) == Some(0)) ==> r == fallback
    ensures ParseInt(v).Some? && ParseInt(v).value != 0 ==> r == ParseInt(v).value
  {
    match ParseInt(v)
    case Some(n) => if n != 0 then n else fallback
    case None => fallback
  }

  lemma ParseIntOrOfNumber(n: int, fallback: int)
    ensures ParseIntOr(Num(n), fallback) == if n != 0 then n else fallback
  {
    ParseIntOfNumber(n);
  }

  /** `Math.max(lo, Math.min(hi, x))`. */
  function Clamp(lo: int, hi: int, x: int): (r: int)
    requires lo <= hi
    ensures lo <= r <= hi
    ensures lo <= x <= hi ==> r == x
    ensures x < lo ==> r == lo
    ensures x > hi ==> r == hi
  {
    if x < lo then lo else if x > hi then hi else x
  }

  // ---------------------------------------------------------------------
  // Loose equality
  // ---------------------------------------------------------------------

  /**
   * ToNumber on a string: '' is 0, an optional sign and decimal digits give
   * their value, anything else is NaN (None).
   */
  function StringToNumber(s: string): (r: Option<int>)
    ensures s == "" ==> r == Some(0)
    ensures s != "" && r.Some? ==> ParseIntString(s) == r
    ensures s != "" ==>
              var body := if s[0] == '-' || s[0] == '+' then s[1..] else s;
              (r.Some? <==> 0 < DigitPrefixLength(body) == |body|)
  {
    if s == "" then Some(0)
    else
      var body := if s[0] == '-' || s[0] == '+' then s[1..] else s;
      var k := DigitPrefixLength(body);
      if k == 0 || k != |body| then None
      else
        var magnitude: int := DigitsValue(body);
        assert body[..k] == body;
        Some(if s[0] == '-' then -magnitude else magnitude)
  }

  function Rank(v: JsValue): nat {
    if v.Bool? then 1 else 0
  }

  /**
   * Abstract equality `a == b` for primitives: same types compare strictly,
   * null equals undefined, a boolean is first turned into 0 or 1, and a
   * number compared with a string compares with the string's ToNumber.
   */
  predicate LooseEquals(a: JsValue, b: JsValue)
    decreases Rank(a) + Rank(b)
  {
    if a.Undefined? || a.Null? then b.Undefined? || b.Null?
    else if b.Undefined? || b.Null? then false
    else if a.Bool? then LooseEquals(Num(if a.b then 1 else 0), b)
    else if b.Bool? then LooseEquals(a, Num(if b.b then 1 else 0))
    else if a.Num? && b.Str? then StringToNumber(b.s) == Some(a.n)
    else if a.Str? && b.Num? then StringToNumber(a.s) == Some(b.n)
    else a == b
  }

  /** `==` is symmetric. */
  lemma LooseEqualsSymmetric(a: JsValue, b: JsValue)
    ensures LooseEquals(a, b) <==> LooseEquals(b, a)
    decreases Rank(a) + Rank(b)
  {
    if !(a.Undefined? || a.Null? || b.Undefined? || b.Null?) {
      if a.Bool? {
        LooseEqualsSymmetric(Num(if a.b then 1 else 0), b);
      } else if b.Bool? {
        LooseEqualsSymmetric(a, Num(if b.b then 1 else 0));
      }
    }
  }

  /** A number loosely equals the string JavaScript prints for it. */
  lemma LooseEqualsNumberString(n: int)
    ensures LooseEquals(Num(n), Str(NumberToString(n)))
  {
    var m: nat := if n < 0 then -n else n;
    var digits := NatToDigits(m);
    DigitPrefixOfDigits(digits);
    NatToDigitsValue(m);
    if n < 0 {
      assert ("-" + digits)[1..] == digits;
    }
  }
}
