/** The pieces of Python's runtime the tuner relies on, stated over exact
    integers and reals: `round`, `str` of an integer (and its inverse), true
    division and `math.log2` with the exceptions they raise, and the
    transcendental functions, which are held abstract. */
module Builtins {
  import opened Outcomes

  /** The exceptions the arithmetic of the tuner can raise. */
  datatype PyError =
    | ZeroDivisionError   // `x / 0.0`
    | MathDomainError     // `math.log2(x)` with `x <= 0` (a ValueError)

  /** The values stored in the dictionaries the tuner returns. */
  datatype Value = Text(text: string) | Number(number: int)

  /** `math.log2` and `2 ** y`, held abstract: any pair of functions may be
      supplied, and the properties of the model that need the real logarithm
      say so through `ExactLogarithms`. */
  datatype Transcendentals = Transcendentals(log2: real -> real, exp2: real -> real)

  /** `2 ** y` never reaches zero or below. */
  ghost predicate Exp2Positive(t: Transcendentals) {
    forall y :: t.exp2(y) > 0.0
  }

  /** The laws of the exact base-2 logarithm and exponential that the cents
      computation depends on. */
  ghost predicate ExactLogarithms(t: Transcendentals) {
    && Exp2Positive(t)
    && (forall y :: t.log2(t.exp2(y)) == y)
    && (forall x, y {:trigger t.log2(x / t.exp2(y))} ::
          x > 0.0 ==> t.log2(x / t.exp2(y)) == t.log2(x) - y)
  }

  /** `n` is an integer nearest to `x`. */
  ghost predicate IsNearestInteger(x: real, n: int) {
    x - 0.5 <= n as real <= x + 0.5
  }

  // ---------------------------------------------------------------------------
  // round
  // ---------------------------------------------------------------------------

  /** Python's `round(x)` with no digits: the nearest integer, and on a tie
      (a fractional part of exactly one half) the even neighbour. */
  function Round(x: real): (n: int)
    ensures IsNearestInteger(x, n)
    ensures n as real == x - 0.5 || n as real == x + 0.5 ==> n % 2 == 0
  {
    var below := x.Floor;
    var fraction := x - below as real;
    if fraction < 0.5 then below
    else if fraction > 0.5 then below + 1
    else if below % 2 == 0 then below
    else below + 1
  }

  /** `Round` is the only integer with the two properties above: a nearest
      integer, and the even one on a tie. */
  lemma {:induction false} RoundUnique(x: real, m: int)
    requires IsNearestInteger(x, m)
    requires m as real == x - 0.5 || m as real == x + 0.5 ==> m % 2 == 0
    ensures Round(x) == m
  {
  }

  /** An integer rounds to itself. */
  lemma {:induction false} RoundOfInteger(k: int)
    ensures Round(k as real) == k
  {
    RoundUnique(k as real, k);
  }

  // ---------------------------------------------------------------------------
  // Division and math.log2 with their exceptions
  // ---------------------------------------------------------------------------

  /** Python's true division `a / b`, which raises on a zero divisor. */
  function Divide(a: real, b: real): (r: Result<real, PyError>)
    ensures r.Err? <==> b == 0.0
    ensures r.Err? ==> r.error == ZeroDivisionError
    ensures r.Ok? ==> r.value * b == a
  {
    if b == 0.0 then Err(ZeroDivisionError) else Ok(a / b)
  }

  /** `math.log2(x)`, which raises a domain error for `x <= 0`. */
  function Log2(t: Transcendentals, x: real): (r: Result<real, PyError>)
    ensures r.Err? <==> x <= 0.0
    ensures r.Err? ==> r.error == MathDomainError
    ensures r.Ok? ==> r.value == t.log2(x)
  {
    if x <= 0.0 then Err(MathDomainError) else Ok(t.log2(x))
  }

  // ---------------------------------------------------------------------------
  // str(int) and its inverse
  // ---------------------------------------------------------------------------

  const Digits: string := "0123456789"

  predicate IsDigit(ch: char) {
    '0' <= ch <= '9'
  }

  predicate AllDigits(s: string) {
    forall i | 0 <= i < |s| :: IsDigit(s[i])
  }

  function DigitValue(ch: char): (d: nat)
    requires IsDigit(ch)
    ensures d < 10 && Digits[d] == ch
  {
    ch as int - '0' as int
  }

  /** The decimal digits of `n` without leading zeros, as `str(n)` prints them. */
  function NatToString(n: nat): (s: string)
    ensures |s| >= 1 && AllDigits(s)
    ensures s[0] == '0' ==> n == 0
    decreases n
  {
    if n < 10 then [Digits[n]] else NatToString(n / 10) + [Digits[n % 10]]
  }

  /** A leading zero occurs only in `str(0)`, which is exactly "0". */
  lemma {:induction false} OnlyZeroStartsWithZero(n: nat)
    ensures NatToString(n)[0] == '0' ==> NatToString(n) == "0"
  {
    if NatToString(n)[0] == '0' {
      assert n == 0;
    }
  }

  /** `str(i)`: a leading `-` for a negative integer, then its digits. */
  function IntToString(i: int): (s: string)
    ensures |s| >= 1
    ensures s[0] == '-' <==> i < 0
    ensures i >= 0 ==> AllDigits(s)
    ensures i < 0 ==> AllDigits(s[1..]) && |s| >= 2
  {
    if i < 0 then "-" + NatToString(-i) else NatToString(i)
  }

  /** `str` never pads with zeros: a non-negative integer starts with `0`
      only when it is 0, and a negative one never has `0` right after the
      sign. */
  lemma {:induction false} IntToStringCanonical(i: int)
    ensures i >= 0 && IntToString(i)[0] == '0' ==> IntToString(i) == "0"
    ensures i < 0 ==> IntToString(i)[1] != '0'
  {
    if i < 0 {
      assert IntToString(i)[1..] == NatToString(-i);
    } else {
      OnlyZeroStartsWithZero(i);
    }
  }

  /** The value of a string of decimal digits, read left to right. */
  function ParseDigits(s: string): nat
    requires AllDigits(s)
  {
    if |s| == 0 then 0 else 10 * ParseDigits(s[..|s| - 1]) + DigitValue(s[|s| - 1])
  }

  /** `int(s)` for the strings `str` produces: an optional `-` followed by at
      least one digit; anything else is rejected. */
  function ParseInt(s: string): (r: Option<int>)
    ensures r.Some? ==> |s| >= 1 && (s[0] == '-' || IsDigit(s[0]))
  {
    if |s| >= 2 && s[0] == '-' && AllDigits(s[1..]) then Some(-(ParseDigits(s[1..]) as int))
    else if |s| >= 1 && AllDigits(s) then Some(ParseDigits(s))
    else None
  }

  lemma {:induction false} ParseNatToString(n: nat)
    ensures ParseDigits(NatToString(n)) == n
    decreases n
  {
    if n >= 10 {
      var prefix := NatToString(n / 10);
      var s := prefix + [Digits[n % 10]];
      assert s[..|s| - 1] == prefix;
      ParseNatToString(n / 10);
    }
  }

  /** Reading back what `str` printed gives the integer back. */
  lemma {:induction false} ParseIntToString(i: int)
    ensures ParseInt(IntToString(i)) == Some(i)
  {
    var s := IntToString(i);
    if i < 0 {
      var digits := NatToString(-i);
      assert s == "-" + digits;
      assert s[1..] == digits;
      ParseNatToString(-i);
      assert ParseInt(s) == Some(-(ParseDigits(digits) as int));
    } else {
      assert s == NatToString(i);
      assert IsDigit(s[0]);
      ParseNatToString(i);
      assert ParseInt(s) == Some(ParseDigits(s));
    }
  }

  /** Different integers print differently. */
  lemma {:induction false} IntToStringInjective(i: int, j: int)
    requires IntToString(i) == IntToString(j)
    ensures i == j
  {
    ParseIntToString(i);
    ParseIntToString(j);
  }
}
