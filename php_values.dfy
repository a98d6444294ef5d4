/**
 * The PHP values the setup wizard reads from the request and the session and
 * hands to the view, with the handful of PHP conversions its checks rely on:
 * truthiness, `isset`, the `(int)` cast, `strlen`, reading and writing an
 * array element, and the loose comparison `==`.
 */
module PhpValues {

  /** A PHP value. PHP arrays are split into lists (integer keys 0..n-1) and dictionaries (string keys). */
  datatype Value =
    | Null
    | Bool(b: bool)
    | Int(i: int)
    | Str(s: string)
    | List(items: seq<Value>)
    | Dict(entries: map<string, Value>)

  /** PHP's conversion to boolean: null, false, 0, "", "0" and the empty array are falsy. */
  predicate Truthy(v: Value)
  {
    match v
    case Null => false
    case Bool(b) => b
    case Int(i) => i != 0
    case Str(s) => s != "" && s != "0"
    case List(items) => |items| > 0
    case Dict(entries) => |entries| > 0
  }

  /** PHP's `isset` on a single value: everything but null. */
  predicate IsSet(v: Value)
  {
    !v.Null?
  }

  /** `$bag[$key]` on a request or session bag: a missing key reads as null. */
  function Param(bag: map<string, Value>, key: string): Value
  {
    if key in bag then bag[key] else Null
  }

  /** `$v[$key]` read: a missing key, or a value that is not an array, reads as null. */
  function Get(v: Value, key: string): Value
  {
    if v.Dict? && key in v.entries then v.entries[key] else Null
  }

  /**
   * `$v[$key] = $x`: an array gets the key set; any other value is replaced
   * by a fresh array holding only that key, as PHP does for null.
   */
  function Put(v: Value, key: string, x: Value): (r: Value)
    ensures r.Dict?
    ensures Get(r, key) == x
    ensures forall k :: k != key ==> Get(r, k) == Get(v, k)
    ensures v.Dict? ==> r.entries.Keys == v.entries.Keys + {key}
    ensures !v.Dict? ==> r.entries.Keys == {key}
  {
    match v
    case Dict(entries) => Dict(entries[key := x])
    case _ => Dict(map[key := x])
  }

  // ---------------------------------------------------------------------------
  // The (int) cast and strlen
  // ---------------------------------------------------------------------------

  /** The characters PHP skips in front of a numeric string: space, \t, \n, \r, \v, \f. */
  predicate IsWhitespace(c: char)
  {
    c == ' ' || c == '\t' || c == '\n' || c == '\r' || c == '\U{B}' || c == '\U{C}'
  }

  predicate IsDigit(c: char)
  {
    '0' <= c <= '9'
  }

  function SkipWhitespace(s: string): (t: string)
    ensures |t| <= |s| && t == s[|s| - |t|..]
    ensures |t| > 0 ==> !IsWhitespace(t[0])
  {
    if |s| > 0 && IsWhitespace(s[0]) then SkipWhitespace(s[1..]) else s
  }

  /** The longest prefix of `s` made of decimal digits. */
  function DigitPrefix(s: string): (d: string)
    ensures d <= s
    ensures forall i :: 0 <= i < |d| ==> IsDigit(d[i])
    ensures |d| < |s| ==> !IsDigit(s[|d|])
  {
    if |s| > 0 && IsDigit(s[0]) then [s[0]] + DigitPrefix(s[1..]) else []
  }

  /** The number a string of decimal digits denotes. */
  function DigitsValue(d: string): nat
  {
    if |d| == 0 then 0
    else
      var c := d[|d| - 1];
      DigitsValue(d[..|d| - 1]) * 10 + (if IsDigit(c) then c as int - '0' as int else 0)
  }

  /** The sign and digits that follow the leading whitespace, as PHP reads a leading integer. */
  function StringToInt(s: string): int
  {
    var t := SkipWhitespace(s);
    if |t| > 0 && t[0] == '-' then -(DigitsValue(DigitPrefix(t[1..])) as int)
    else if |t| > 0 && t[0] == '+' then DigitsValue(DigitPrefix(t[1..]))
    else DigitsValue(DigitPrefix(t))
  }

  /** PHP's `(int)` cast. */
  function IntCast(v: Value): int
  {
    match v
    case Null => 0
    case Bool(b) => if b then 1 else 0
    case Int(i) => i
    case Str(s) => StringToInt(s)
    case List(items) => if |items| == 0 then 0 else 1
    case Dict(entries) => if |entries| == 0 then 0 else 1
  }

  lemma {:induction false} DigitsValueOfZeros(d: string)
    requires forall i :: 0 <= i < |d| ==> d[i] == '0'
    ensures DigitsValue(d) == 0
  {
    if |d| > 0 {
      DigitsValueOfZeros(d[..|d| - 1]);
    }
  }

  /** A non-zero `(int)` cast only comes from a truthy value. */
  lemma IntCastNonZeroIsTruthy(v: Value)
    ensures IntCast(v) != 0 ==> Truthy(v)
  {
    if v.Str? && !Truthy(v) {
      StringToIntOfFalsy(v.s);
    }
  }

  /** The two falsy strings, "" and "0", cast to 0. */
  lemma StringToIntOfFalsy(s: string)
    requires s == "" || s == "0"
    ensures StringToInt(s) == 0
  {
    if s == "0" {
      assert !IsWhitespace('0');
      assert SkipWhitespace(s) == s;
      var d := DigitPrefix(s);
      assert d[0] == '0';
      assert d == s;
      DigitsValueOfZeros(d);
    }
  }

  /** The number of decimal characters PHP prints for an integer. */
  function DecimalLength(i: int): (n: nat)
    ensures n >= 1
    decreases if i < 0 then 1 - i else i
  {
    if i < 0 then 1 + DecimalLength(-i)
    else if i < 10 then 1
    else 1 + DecimalLength(i / 10)
  }

  /**
   * `strlen` of a value after PHP's conversion to string. Strings are
   * sequences of characters here, so a character counts as one byte. An
   * array, for which PHP 7 returns null (below any positive bound), counts as 0.
   */
  function StrLen(v: Value): nat
  {
    match v
    case Null => 0
    case Bool(b) => if b then 1 else 0
    case Int(i) => DecimalLength(i)
    case Str(s) => |s|
    case List(_) => 0
    case Dict(_) => 0
  }

  // ---------------------------------------------------------------------------
  // Loose comparison
  // ---------------------------------------------------------------------------

  /** A string PHP reads as an integer: optional leading whitespace, an optional sign, one or more digits. */
  predicate IsIntegerString(s: string)
  {
    var t := SkipWhitespace(s);
    var u := if |t| > 0 && (t[0] == '-' || t[0] == '+') then t[1..] else t;
    |u| > 0 && DigitPrefix(u) == u
  }

  /** The range of PHP's integers on a 64-bit platform. */
  const PhpIntMin: int := -0x8000_0000_0000_0000
  const PhpIntMax: int := 0x7FFF_FFFF_FFFF_FFFF

  predicate InIntRange(n: int)
  {
    PhpIntMin <= n <= PhpIntMax
  }

  /**
   * PHP's `==` on two strings: two integer strings whose values fit PHP's
   * integers compare as numbers. When either overflows, PHP compares as
   * floats, except that two values overflowing to the same side with equal
   * floats fall back to the characters; for integer strings either way the
   * result is that the strings are equal. Other strings compare character
   * by character, and on values that are not both strings this is plain
   * equality.
   */
  predicate LooseEquals(a: Value, b: Value)
  {
    if a.Str? && b.Str? && IsIntegerString(a.s) && IsIntegerString(b.s)
    then
      if InIntRange(StringToInt(a.s)) && InIntRange(StringToInt(b.s))
      then StringToInt(a.s) == StringToInt(b.s)
      else a.s == b.s
    else a == b
  }
}
