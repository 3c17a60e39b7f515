/**
 * The small part of the JavaScript built-ins that the catalog core relies on,
 * restated over unbounded integers and sequences of characters:
 * `Math.ceil` of an integer quotient, `Number.prototype.toString` and
 * `Number.parseInt` in base ten, ASCII `toLowerCase`, `String.prototype.includes`,
 * `Array.prototype.filter`, `Array.prototype.slice(0, end)` and
 * `Array.prototype.pop`.
 */
module JsBuiltins {

  datatype Option<+T> = None | Some(value: T)

  /** `x || d` for an optional number: undefined and 0 are falsy. */
  function OrDefault(x: Option<int>, d: int): (r: int)
    ensures x.Some? && x.value != 0 ==> r == x.value
    ensures x == None || x == Some(0) ==> r == d
  {
    if x.Some? && x.value != 0 then x.value else d
  }

  function Max(a: int, b: int): int { if a < b then b else a }
  function Min(a: int, b: int): int { if a < b then a else b }

  // ---------------------------------------------------------------------------
  // Math.ceil(a / b)

  /** `Math.ceil(a / b)` for a non-zero divisor (a zero divisor gives Infinity or NaN in JavaScript). */
  function CeilDiv(a: int, b: int): (q: int)
    requires b != 0
    ensures b > 0 ==> (q - 1) * b < a <= q * b
    ensures b < 0 ==> q * b <= a < (q - 1) * b
  {
    if b > 0 then CeilPos(a, b) else CeilPos(-a, -b)
  }

  function CeilPos(a: int, b: int): (q: int)
    requires b > 0
    ensures (q - 1) * b < a <= q * b
  {
    var q := (a + b - 1) / b;
    assert (a + b - 1) == q * b + (a + b - 1) % b;
    q
  }

  lemma CeilDivZero(a: int, b: int)
    requires a >= 0 && b > 0
    ensures CeilDiv(a, b) >= 0
    ensures CeilDiv(a, b) == 0 <==> a == 0
  {
    assert CeilDiv(a, b) == (a + b - 1) / b;
  }

  // ---------------------------------------------------------------------------
  // Decimal strings

  predicate IsDigit(c: char) { '0' <= c <= '9' }

  function DigitChar(d: int): (c: char)
    requires 0 <= d < 10
    ensures IsDigit(c) && c as int - '0' as int == d
  {
    ('0' as int + d) as char
  }

  function DigitValue(c: char): int
    requires IsDigit(c)
  {
    c as int - '0' as int
  }

  /** The decimal digits of a natural number, most significant first, without leading zeros. */
  function NatToString(n: nat): (s: string)
    ensures |s| > 0 && IsDigit(s[0])
    ensures forall i :: 0 <= i < |s| ==> IsDigit(s[i])
  {
    if n < 10 then [DigitChar(n)] else NatToString(n / 10) + [DigitChar(n % 10)]
  }

  /** `n.toString()` for an integer `n`. */
  function IntToString(n: int): (s: string)
    ensures |s| > 0 && (IsDigit(s[0]) || s[0] == '-')
  {
    if n < 0 then "-" + NatToString(-n) else NatToString(n)
  }

  /** The value of a string of decimal digits. */
  function DigitsValue(s: string): (v: nat)
    requires forall i :: 0 <= i < |s| ==> IsDigit(s[i])
  {
    if |s| == 0 then 0 else DigitsValue(s[..|s| - 1]) * 10 + DigitValue(s[|s| - 1])
  }

  /** The length of the longest prefix of `s` made of decimal digits. */
  function DigitRun(s: string): (k: nat)
    ensures k <= |s|
    ensures forall i :: 0 <= i < k ==> IsDigit(s[i])
    ensures k < |s| ==> !IsDigit(s[k])
  {
    if |s| == 0 || !IsDigit(s[0]) then 0 else 1 + DigitRun(s[1..])
  }

  /** The value of the leading digits of `s`, or None when `s` does not start with a digit. */
  function LeadingDigits(s: string): (r: Option<nat>)
    ensures r.Some? <==> |s| > 0 && IsDigit(s[0])
  {
    var k := DigitRun(s);
    if k == 0 then None else Some(DigitsValue(s[..k]))
  }

  /**
   * `Number.parseInt(s)` in base ten: an optional sign, then the longest run of
   * digits; whatever follows is ignored. None stands for NaN (no digit after the sign).
   */
  function ParseInt(s: string): (r: Option<int>)
    ensures r.Some? ==> |s| > 0
  {
    if |s| > 0 && s[0] == '-' then
      match LeadingDigits(s[1..])
      case Some(v) => Some(-(v as int))
      case None => None
    else if |s| > 0 && s[0] == '+' then
      match LeadingDigits(s[1..])
      case Some(v) => Some(v)
      case None => None
    else
      match LeadingDigits(s)
      case Some(v) => Some(v)
      case None => None
  }

  lemma {:induction false} DigitRunAll(s: string)
    requires forall i :: 0 <= i < |s| ==> IsDigit(s[i])
    ensures DigitRun(s) == |s|
  {
    if |s| > 0 {
      DigitRunAll(s[1..]);
    }
  }

  lemma {:induction false} NatToStringValue(n: nat)
    ensures DigitsValue(NatToString(n)) == n
  {
    var s := NatToString(n);
    if n >= 10 {
      NatToStringValue(n / 10);
      assert s[..|s| - 1] == NatToString(n / 10);
    }
  }

  lemma {:induction false} DigitRunAppend(ds: string, rest: string)
    requires forall i :: 0 <= i < |ds| ==> IsDigit(ds[i])
    requires rest == [] || !IsDigit(rest[0])
    ensures DigitRun(ds + rest) == |ds|
  {
    if |ds| > 0 {
      assert (ds + rest)[1..] == ds[1..] + rest;
      DigitRunAppend(ds[1..], rest);
    }
  }

  lemma NatToStringParses(n: nat, rest: string)
    requires rest == [] || !IsDigit(rest[0])
    ensures LeadingDigits(NatToString(n) + rest) == Some(n)
  {
    var s := NatToString(n);
    DigitRunAppend(s, rest);
    assert (s + rest)[..|s|] == s;
    NatToStringValue(n);
  }

  /**
   * Reading back a printed integer gives the integer, whatever non-digit text
   * follows it (`parseInt("45m")` is 45).
   */
  lemma ParseIntToStringThen(n: int, rest: string)
    requires rest == [] || !IsDigit(rest[0])
    ensures ParseInt(IntToString(n) + rest) == Some(n)
  {
    var s := IntToString(n) + rest;
    if n < 0 {
      var digits := NatToString(-n);
      assert s == "-" + (digits + rest);
      assert s[0] == '-' && s[1..] == digits + rest;
      NatToStringParses(-n, rest);
      assert LeadingDigits(s[1..]) == Some(-n);
    } else {
      var digits := NatToString(n);
      assert s == digits + rest;
      assert s[0] == digits[0] && IsDigit(s[0]);
      NatToStringParses(n, rest);
      assert LeadingDigits(s) == Some(n);
    }
  }

  /** Reading back a printed integer gives the integer. */
  lemma ParseIntToString(n: int)
    ensures ParseInt(IntToString(n)) == Some(n)
  {
    ParseIntToStringThen(n, []);
    assert IntToString(n) + [] == IntToString(n);
  }

  /** Distinct integers print differently. */
  lemma IntToStringInjective(a: int, b: int)
    requires IntToString(a) == IntToString(b)
    ensures a == b
  {
    ParseIntToString(a);
    ParseIntToString(b);
  }

  lemma IntToStringHasNoSeparator(n: int, c: char)
    requires c == '/' || c == '&'
    ensures c !in IntToString(n)
  {
  }

  // ---------------------------------------------------------------------------
  // Strings

  /** `toLowerCase` restricted to ASCII letters. */
  function Lower(c: char): char
  {
    if 'A' <= c <= 'Z' then (c as int + 32) as char else c
  }

  function LowerString(s: string): (r: string)
    ensures |r| == |s|
    ensures forall i :: 0 <= i < |s| ==> r[i] == Lower(s[i])
  {
    seq(|s|, i requires 0 <= i < |s| => Lower(s[i]))
  }

  /** `hay.includes(needle)`: `needle` occurs in `hay` at some offset. */
  predicate Includes(hay: string, needle: string)
  {
    exists i | 0 <= i <= |hay| - |needle| :: OccursAt(hay, needle, i)
  }

  predicate OccursAt(hay: string, needle: string, i: int)
    requires 0 <= i <= |hay| - |needle|
  {
    hay[i..i + |needle|] == needle
  }

  // ---------------------------------------------------------------------------
  // Arrays

  /** `s.filter(p)`: the elements of `s` that satisfy `p`, in their order. */
  function KeepIf<T>(s: seq<T>, p: T -> bool): (r: seq<T>)
    ensures |r| <= |s|
    ensures forall i :: 0 <= i < |r| ==> p(r[i]) && r[i] in s
    ensures forall i :: 0 <= i < |s| && p(s[i]) ==> s[i] in r
    ensures multiset(r) <= multiset(s)
  {
    if |s| == 0 then []
    else
      assert s == [s[0]] + s[1..];
      if p(s[0]) then [s[0]] + KeepIf(s[1..], p) else KeepIf(s[1..], p)
  }

  /** `s.map(f)`: one result per element, in order. */
  function Map<T, U>(s: seq<T>, f: T -> U): (r: seq<U>)
    ensures |r| == |s|
    ensures forall i :: 0 <= i < |s| ==> r[i] == f(s[i])
  {
    seq(|s|, i requires 0 <= i < |s| => f(s[i]))
  }

  /** Filtering a concatenation filters each part: the filter keeps the relative order. */
  lemma {:induction false} KeepIfAppend<T>(a: seq<T>, b: seq<T>, p: T -> bool)
    ensures KeepIf(a + b, p) == KeepIf(a, p) + KeepIf(b, p)
  {
    if |a| > 0 {
      assert (a + b)[1..] == a[1..] + b;
      KeepIfAppend(a[1..], b, p);
    } else {
      assert a + b == b;
    }
  }

  lemma {:induction false} KeepIfIdempotent<T>(s: seq<T>, p: T -> bool)
    ensures KeepIf(KeepIf(s, p), p) == KeepIf(s, p)
  {
    if |s| > 0 {
      KeepIfIdempotent(s[1..], p);
    }
  }

  /** A filter whose predicate holds everywhere keeps everything; one that never holds keeps nothing. */
  lemma {:induction false} KeepIfAllOrNone<T>(s: seq<T>, p: T -> bool)
    ensures (forall i :: 0 <= i < |s| ==> p(s[i])) ==> KeepIf(s, p) == s
    ensures (forall i :: 0 <= i < |s| ==> !p(s[i])) ==> KeepIf(s, p) == []
  {
    if |s| > 0 {
      KeepIfAllOrNone(s[1..], p);
      assert forall i :: 0 <= i < |s[1..]| ==> s[1..][i] == s[i + 1];
    }
  }

  /** The length `s.slice(0, end)` has: a negative end counts from the back. */
  function SliceLength(len: nat, end: int): (k: nat)
    ensures k <= len
    ensures end >= 0 ==> k == Min(end, len)
    ensures end < 0 ==> k == Max(0, len + end)
  {
    if end < 0 then Max(0, len + end) else Min(end, len)
  }

  /** `s.slice(0, end)`. */
  function SliceTo<T>(s: seq<T>, end: int): (r: seq<T>)
    ensures |r| == SliceLength(|s|, end) && r == s[..|r|]
  {
    s[..SliceLength(|s|, end)]
  }

  /** A JavaScript array changed in place by `pop` and `push`. */
  class JsArray<T> {
    var elems: seq<T>

    constructor (init: seq<T>)
      ensures elems == init
    {
      elems := init;
    }

    /** `a[a.length - 1]`: the last element, or undefined for an empty array. */
    function Last(): (r: Option<T>)
      reads this
      ensures r.Some? <==> |elems| > 0
      ensures r.Some? ==> r.value == elems[|elems| - 1]
    {
      if |elems| == 0 then None else Some(elems[|elems| - 1])
    }

    /** `a.pop()`: removes the last element; does nothing to an empty array. */
    method Pop() returns (r: Option<T>)
      modifies this
      ensures r == old(Last())
      ensures elems == if |old(elems)| == 0 then [] else old(elems)[..|old(elems)| - 1]
    {
      if |elems| == 0 {
        r := None;
      } else {
        r := Some(elems[|elems| - 1]);
        elems := elems[..|elems| - 1];
      }
    }

    /** `a.push(x)`: appends one element at the end. */
    method Push(x: T)
      modifies this
      ensures elems == old(elems) + [x]
      ensures Last() == Some(x)
    {
      elems := elems + [x];
    }
  }
}
