/** The optional value used by the parsing functions. */
module Options {
  datatype Option<T> = None | Some(value: T)
}

/**
 * The parts of .NET's System.Math and of its number formatting that the
 * blender relies on, stated over mathematical reals.
 */
module DotNet {
  import opened Options

  /**
   * Math.Round(x): the nearest integer, where a tie goes to the even
   * neighbour (MidpointRounding.ToEven, the .NET default).
   */
  function RoundHalfEven(x: real): (r: int)
    ensures x - 0.5 <= r as real <= x + 0.5
    ensures (r as real == x - 0.5 || r as real == x + 0.5) ==> r % 2 == 0
  {
    var f := x.Floor;
    var d := x - f as real;
    if d < 0.5 then f
    else if d > 0.5 then f + 1
    else if f % 2 == 0 then f else f + 1
  }

  /** The two conditions of RoundHalfEven's contract single out one integer. */
  lemma RoundHalfEvenUnique(x: real, k: int)
    requires x - 0.5 <= k as real <= x + 0.5
    requires (k as real == x - 0.5 || k as real == x + 0.5) ==> k % 2 == 0
    ensures k == RoundHalfEven(x)
  {
  }

  /** An integer is its own rounding. */
  lemma RoundHalfEvenOfInteger(k: int)
    ensures RoundHalfEven(k as real) == k
  {
    RoundHalfEvenUnique(k as real, k);
  }

  /** The powers of ten Math.Round(x, digits) scales by; .NET accepts digits 0 to 15 only. */
  const Powers10: seq<real> := [
    1.0, 10.0, 100.0, 1000.0, 10000.0, 100000.0, 1000000.0, 10000000.0,
    100000000.0, 1000000000.0, 10000000000.0, 100000000000.0, 1000000000000.0,
    10000000000000.0, 100000000000000.0, 1000000000000000.0]

  function Pow10(digits: nat): (r: real)
    requires digits < |Powers10|
    ensures r >= 1.0
  {
    Powers10[digits]
  }

  /** Math.Round(x, digits): the multiple of 10^-digits nearest to x, ties to even. */
  /** It moves x by at most half a unit in the last kept digit. */
  function RoundDigits(x: real, digits: nat): (r: real)
    requires digits < |Powers10|
    ensures x - 0.5 / Pow10(digits) <= r <= x + 0.5 / Pow10(digits)
  {
    var p := Pow10(digits);
    var k := RoundHalfEven(x * p);
    ScaleBack(x, p, k);
    k as real / p
  }

  lemma ScaleBack(x: real, p: real, k: int)
    requires p >= 1.0
    requires x * p - 0.5 <= k as real <= x * p + 0.5
    ensures (k as real / p) * p == k as real
    ensures x - 0.5 / p <= k as real / p <= x + 0.5 / p
  {
    var q := k as real / p;
    assert q * p == k as real;
    assert (x - 0.5 / p) * p == x * p - 0.5;
    assert (x + 0.5 / p) * p == x * p + 0.5;
  }

  /** Rounding a rounded value to the same number of digits changes nothing. */
  lemma RoundDigitsIdempotent(x: real, digits: nat)
    requires digits < |Powers10|
    ensures RoundDigits(RoundDigits(x, digits), digits) == RoundDigits(x, digits)
  {
    ScaledRoundIdempotent(x, Pow10(digits));
  }

  lemma ScaledRoundIdempotent(x: real, p: real)
    requires p >= 1.0
    ensures var r := RoundHalfEven(x * p) as real / p; RoundHalfEven(r * p) as real / p == r
  {
    var k := RoundHalfEven(x * p);
    var r := k as real / p;
    assert r * p == k as real;
    RoundHalfEvenOfInteger(k);
  }

  predicate IsDigit(c: char) {
    '0' <= c <= '9'
  }

  predicate AllDigits(s: string) {
    forall i :: 0 <= i < |s| ==> IsDigit(s[i])
  }

  /** The decimal digits of n, most significant first, without leading zeros. */
  function NatText(n: nat): (s: string)
    ensures |s| >= 1 && AllDigits(s)
  {
    var last := [(48 + n % 10) as char];
    if n < 10 then last else NatText(n / 10) + last
  }

  /**
   * The text .NET prints for an integer-valued double of moderate size:
   * a minus sign for a negative value, then the decimal digits; it opens
   * with the sign exactly when the value is negative.
   */
  function IntText(i: int): (s: string)
    ensures |s| >= 1 && (s[0] == '-' <==> i < 0)
  {
    if i < 0 then "-" + NatText(-i) else NatText(i)
  }

  /** The number a string of decimal digits denotes. */
  function DigitsValue(s: string): nat
    requires AllDigits(s)
  {
    if s == [] then 0
    else DigitsValue(s[..|s| - 1]) * 10 + (s[|s| - 1] as int - 48)
  }

  /** Reads back a decimal integer, with an optional leading minus sign. */
  function ParseInt(s: string): Option<int> {
    if |s| >= 2 && s[0] == '-' && AllDigits(s[1..]) then Some(-(DigitsValue(s[1..]) as int))
    else if |s| >= 1 && AllDigits(s) then Some(DigitsValue(s))
    else None
  }

  lemma {:induction false} NatTextValue(n: nat)
    ensures DigitsValue(NatText(n)) == n
  {
    var s := NatText(n);
    assert s[..|s| - 1] == if n < 10 then [] else NatText(n / 10);
    if n >= 10 {
      NatTextValue(n / 10);
    }
  }

  /** ParseInt reads back every integer IntText writes. */
  lemma IntTextRoundTrip(i: int)
    ensures ParseInt(IntText(i)) == Some(i)
  {
    if i < 0 {
      var s := IntText(i);
      assert s[1..] == NatText(-i);
      NatTextValue(-i);
    } else {
      NatTextValue(i);
    }
  }

  /** IntText never writes a character other than a digit or a minus sign. */
  lemma IntTextChars(i: int)
    ensures |IntText(i)| >= 1
    ensures forall k :: 0 <= k < |IntText(i)| ==> IsDigit(IntText(i)[k]) || IntText(i)[k] == '-'
  {
    if i < 0 {
      var s := IntText(i);
      forall k | 1 <= k < |s| ensures IsDigit(s[k]) {
        assert s[k] == NatText(-i)[k - 1];
      }
    }
  }
}
