/**
 * The parts of JavaScript's number and string semantics that the weather code
 * relies on: Math.round, Math.floor, Math.min/Math.max, the `||` fallback on
 * numbers, a Math.random draw, ASCII case mapping, String.prototype.includes
 * and the decimal text of an integer.
 */
module Js {

  datatype Option<T> = None | Some(value: T)

  datatype Result<T, E> = Ok(value: T) | Err(error: E)

  /** A JavaScript number that is known to be an integer, or NaN. */
  datatype JsInt = Int(v: int) | NaN

  /** One value of Math.random(): a real in [0, 1). */
  type Draw = r: real | 0.0 <= r < 1.0

  /** A strictly positive real (the range of Math.exp on finite arguments). */
  type PosReal = r: real | r > 0.0 witness 1.0

  /** A real in [-1, 1] (the range of Math.sin). */
  type UnitReal = r: real | -1.0 <= r <= 1.0

  function Min(a: int, b: int): int { if a <= b then a else b }

  /** Math.floor: the largest integer not above x. */
  function Floor(x: real): (r: int)
    ensures r as real <= x < r as real + 1.0
  {
    x.Floor
  }

  /** Math.round: the nearest integer, halves going toward +infinity. */
  function Round(x: real): (r: int)
    ensures r as real - 0.5 <= x < r as real + 0.5
  {
    Floor(x + 0.5)
  }

  lemma RoundMonotone(x: real, y: real)
    requires x <= y
    ensures Round(x) <= Round(y)
  {
  }

  /** Math.min(100, Math.max(0, x)) on an integer x. */
  function Clamp(x: int): (r: int)
    ensures 0 <= r <= 100
    ensures 0 <= x <= 100 ==> r == x
    ensures x < 0 ==> r == 0
    ensures x > 100 ==> r == 100
  {
    if x < 0 then 0 else if x > 100 then 100 else x
  }

  /** `a[i]` on an array of numbers: undefined (None) outside the array. */
  function At(a: seq<real>, i: int): (r: Option<real>)
    ensures r.Some? <==> 0 <= i < |a|
    ensures r.Some? ==> r.value == a[i]
  {
    if 0 <= i < |a| then Some(a[i]) else None
  }

  /**
   * `a || b` where `a` is a number or undefined: `a` is kept only when it is
   * truthy, that is defined and different from 0.
   */
  function Or(a: Option<real>, b: Option<real>): (r: Option<real>)
    ensures a.Some? && a.value != 0.0 ==> r == a
    ensures a.None? || a.value == 0.0 ==> r == b
  {
    if a.Some? && a.value != 0.0 then a else b
  }

  // ---------------------------------------------------------------------------
  // Characters and strings (ASCII case mapping only)

  function LowerChar(c: char): char
  {
    if 'A' <= c <= 'Z' then (c as int + 32) as char else c
  }

  function UpperChar(c: char): char
  {
    if 'a' <= c <= 'z' then (c as int - 32) as char else c
  }

  /** String.prototype.toLowerCase, on ASCII letters. */
  function Lower(s: string): (r: string)
    ensures |r| == |s|
    ensures forall i :: 0 <= i < |s| ==> r[i] == LowerChar(s[i])
    ensures forall i :: 0 <= i < |r| ==> !('A' <= r[i] <= 'Z')
  {
    seq(|s|, i requires 0 <= i < |s| => LowerChar(s[i]))
  }

  lemma LowerIdempotent(s: string)
    ensures Lower(Lower(s)) == Lower(s)
  {
    assert forall i :: 0 <= i < |s| ==> LowerChar(Lower(s)[i]) == Lower(s)[i];
  }

  /** A string with no upper-case ASCII letter is its own lower-case form. */
  lemma LowerOfLower(s: string)
    requires forall i :: 0 <= i < |s| ==> !('A' <= s[i] <= 'Z')
    ensures Lower(s) == s
  {
  }

  /** `s.charAt(0).toUpperCase() + s.slice(1)`. */
  function Capitalize(s: string): (r: string)
    ensures |r| == |s|
    ensures |s| > 0 ==> r[0] == UpperChar(s[0]) && !('a' <= r[0] <= 'z')
    ensures |s| > 0 ==> r[1..] == s[1..]
  {
    if |s| == 0 then "" else [UpperChar(s[0])] + s[1..]
  }

  /** `t` occurs in `s` starting at index `i`. */
  predicate OccursAt(s: string, t: string, i: int)
  {
    0 <= i <= |s| - |t| && s[i..i + |t|] == t
  }

  /** String.prototype.includes. */
  predicate Includes(s: string, t: string)
    ensures Includes(s, t) ==> |t| <= |s|
    ensures |t| == 0 ==> Includes(s, t)
    ensures s == t ==> Includes(s, t)
  {
    assert |t| == 0 || s == t ==> OccursAt(s, t, 0);
    exists i :: 0 <= i <= |s| - |t| && OccursAt(s, t, i)
  }

  lemma IncludesWitness(s: string, t: string, i: int)
    requires OccursAt(s, t, i)
    ensures Includes(s, t)
  {
  }

  /**
   * `t` is absent from `s` when, at every place where it could start, the
   * letter of `s` facing `t[k]` differs from it.
   */
  lemma NotIncludes(s: string, t: string, k: int)
    requires 0 <= k < |t|
    requires forall j :: k <= j <= |s| - |t| + k ==> s[j] != t[k]
    ensures !Includes(s, t)
  {
    forall i | 0 <= i <= |s| - |t|
      ensures !OccursAt(s, t, i)
    {
      assert s[i..i + |t|][k] == s[i + k];
    }
  }

  // ---------------------------------------------------------------------------
  // Decimal text of integers (template literal `${n}`)

  predicate IsDigit(c: char) { '0' <= c <= '9' }

  predicate AllDigits(s: string)
  {
    forall i :: 0 <= i < |s| ==> IsDigit(s[i])
  }

  /** Text of an integer: an optional minus sign, then at least one digit. */
  predicate IsIntText(s: string)
  {
    (|s| >= 1 && AllDigits(s)) || (|s| >= 2 && s[0] == '-' && AllDigits(s[1..]))
  }

  /** Decimal digits as JavaScript writes a natural number: no leading zero except in "0". */
  predicate IsNatText(s: string)
  {
    |s| >= 1 && AllDigits(s) && (s[0] == '0' ==> |s| == 1)
  }

  /**
   * Integer text as JavaScript writes it: the digits of a natural number,
   * or a minus sign before the digits of a positive one (never "-0").
   */
  predicate IsCanonicalIntText(s: string)
  {
    IsNatText(s) || (|s| >= 2 && s[0] == '-' && s[1] != '0' && IsNatText(s[1..]))
  }

  function DigitChar(d: nat): (c: char)
    requires d < 10
    ensures IsDigit(c)
  {
    ('0' as int + d) as char
  }

  function DigitValue(c: char): (d: nat)
    requires IsDigit(c)
    ensures d < 10 && DigitChar(d) == c
  {
    c as int - '0' as int
  }

  /** Decimal digits of n, most significant first, without leading zeros. */
  function NatText(n: nat): (r: string)
    ensures IsNatText(r)
    ensures r[0] == '0' <==> n == 0
    ensures n == 0 ==> r == "0"
  {
    if n < 10 then [DigitChar(n)] else NatText(n / 10) + [DigitChar(n % 10)]
  }

  /** The value of a string of decimal digits. */
  function ParseNat(s: string): nat
    requires AllDigits(s)
  {
    if |s| == 0 then 0 else 10 * ParseNat(s[..|s| - 1]) + DigitValue(s[|s| - 1])
  }

  lemma {:induction false} ParseNatText(n: nat)
    ensures ParseNat(NatText(n)) == n
  {
    if n >= 10 {
      var s := NatText(n);
      assert s[..|s| - 1] == NatText(n / 10);
      ParseNatText(n / 10);
    }
  }

  /** Digits that do not start with 0 denote a positive number. */
  lemma {:induction false} LeadingDigitPositive(s: string)
    requires |s| >= 1 && AllDigits(s) && s[0] != '0'
    ensures ParseNat(s) >= 1
  {
    if |s| > 1 {
      LeadingDigitPositive(s[..|s| - 1]);
    }
  }

  /** Canonical digits are the decimal text of the number they denote, and of no other. */
  lemma {:induction false} NatTextUnique(s: string)
    requires IsNatText(s)
    ensures NatText(ParseNat(s)) == s
  {
    if |s| > 1 {
      var p := s[..|s| - 1];
      assert AllDigits(p);
      LeadingDigitPositive(p);
      NatTextUnique(p);
      var n := ParseNat(s);
      assert n / 10 == ParseNat(p) && n % 10 == DigitValue(s[|s| - 1]);
      assert s == p + [s[|s| - 1]];
    }
  }

  function ParseInt(s: string): int
    requires IsIntText(s)
  {
    if s[0] == '-' then 0 - ParseNat(s[1..]) else ParseNat(s)
  }

  /**
   * `${n}` for an integer n: canonical integer text, with a minus sign
   * exactly when n is negative, which reads back as n.
   */
  function IntText(n: int): (r: string)
    ensures IsCanonicalIntText(r)
    ensures r[0] == '-' <==> n < 0
    ensures ParseInt(r) == n
  {
    if n < 0 then
      ParseNatText(-n);
      assert ("-" + NatText(-n))[1..] == NatText(-n);
      "-" + NatText(-n)
    else
      ParseNatText(n);
      NatText(n)
  }

  /** Each integer has exactly one canonical text: the one IntText gives. */
  lemma IntTextUnique(s: string)
    requires IsCanonicalIntText(s)
    ensures IntText(ParseInt(s)) == s
  {
    if IsNatText(s) {
      NatTextUnique(s);
    } else {
      var d := s[1..];
      LeadingDigitPositive(d);
      NatTextUnique(d);
      assert s == "-" + d;
    }
  }
}
