/**
 * Java's 32-bit int arithmetic and its decimal text form, as the tournament and evaluation
 * code uses them: wrap-around on overflow, division and remainder truncated toward zero,
 * Integer.toString and Integer.parseInt.
 */
module JavaInt {

  const MIN_VALUE := -0x8000_0000
  const MAX_VALUE := 0x7FFF_FFFF

  predicate IsInt(n: int) {
    MIN_VALUE <= n <= MAX_VALUE
  }

  /** The 32-bit two's-complement value of n. */
  function Wrap(n: int): (r: int)
    ensures IsInt(r)
    ensures (r - n) % 0x1_0000_0000 == 0
    ensures IsInt(n) ==> r == n
  {
    var m := (n - MIN_VALUE) % 0x1_0000_0000;
    m + MIN_VALUE
  }

  /** Java's a / b on ints: the quotient truncated toward zero, wrapped (MIN_VALUE / -1). */
  function Div(a: int, b: int): (q: int)
    requires b != 0
    ensures IsInt(q)
  {
    Wrap(Truncated(a, b))
  }

  /** The mathematical quotient rounded toward zero. */
  function Truncated(a: int, b: int): int
    requires b != 0
  {
    if (a >= 0) == (b >= 0) then Abs(a) / Abs(b) else -(Abs(a) / Abs(b))
  }

  /** Java's a % b: the remainder keeps the sign of the dividend. */
  function Rem(a: int, b: int): (r: int)
    requires b != 0
    ensures Abs(r) < Abs(b)
    ensures a >= 0 ==> 0 <= r
    ensures a < 0 ==> r <= 0
  {
    if a >= 0 then a % Abs(b) else -((-a) % Abs(b))
  }

  function Abs(n: int): nat {
    if n < 0 then -n else n
  }

  /** Remainder and truncated quotient recombine to the dividend (for an int quotient). */
  lemma DivRem(a: int, b: int)
    requires b != 0 && IsInt(a) && !(a == MIN_VALUE && b == -1)
    ensures Div(a, b) * b + Rem(a, b) == a
  {
    QuotientInRange(a, b);
    assert Div(a, b) == Truncated(a, b);
    SignedRecombine(a, b);
  }

  /** The magnitude of the quotient is an int, except for MIN_VALUE / -1. */
  lemma QuotientInRange(a: int, b: int)
    requires b != 0 && IsInt(a) && !(a == MIN_VALUE && b == -1)
    ensures IsInt(Truncated(a, b))
  {
    QuotientBound(Abs(a), Abs(b));
  }

  /** n / d is at most n, and at most n / 2 when d is at least 2. */
  lemma QuotientBound(n: nat, d: nat)
    requires d >= 1
    ensures n / d <= n
    ensures d >= 2 ==> 2 * (n / d) <= n
  {
    var k, r := n / d, n % d;
    assert n == k * d + r;
    ProductAtLeast(k, d);
  }

  lemma ProductAtLeast(k: nat, d: nat)
    requires d >= 1
    ensures k * d >= k
    ensures d >= 2 ==> k * d >= 2 * k
  {
    assert k * d == k * (d - 1) + k;
    if d >= 2 {
      assert k * (d - 1) == k * (d - 2) + k;
    }
  }

  lemma SignedRecombine(a: int, b: int)
    requires b != 0
    ensures Truncated(a, b) * b + Rem(a, b) == a
  {
    var q, m := Abs(a) / Abs(b), Abs(a) % Abs(b);
    assert Abs(a) == q * Abs(b) + m;
    if b > 0 {
      assert Abs(b) == b;
    } else {
      assert q * b == -(q * Abs(b));
    }
  }

  // ---------------------------------------------------------------- decimal text

  predicate IsDigit(c: char) {
    '0' <= c <= '9'
  }

  function DigitChar(d: int): (c: char)
    requires 0 <= d < 10
    ensures IsDigit(c)
  {
    ['0', '1', '2', '3', '4', '5', '6', '7', '8', '9'][d]
  }

  function DigitValue(c: char): (d: nat)
    requires IsDigit(c)
    ensures d < 10
  {
    (c as int - '0' as int) as nat
  }

  lemma DigitRoundTrip(d: int)
    requires 0 <= d < 10
    ensures DigitValue(DigitChar(d)) == d
  {
  }

  /** The decimal digits of n, without leading zeros. */
  function Digits(n: nat): (s: string)
    ensures |s| >= 1
    ensures forall i :: 0 <= i < |s| ==> IsDigit(s[i])
    ensures n >= 10 ==> s[0] != '0'
    decreases n
  {
    if n < 10 then [DigitChar(n)] else Digits(n / 10) + [DigitChar(n % 10)]
  }

  /** Integer.toString: digits, with a leading '-' for a negative value. */
  function Show(n: int): (s: string)
    ensures |s| >= 1
    ensures n >= 0 ==> forall i :: 0 <= i < |s| ==> IsDigit(s[i])
    ensures n < 0 ==> s[0] == '-' && |s| >= 2 && forall i :: 1 <= i < |s| ==> IsDigit(s[i])
  {
    if n < 0 then "-" + Digits(-n) else Digits(n)
  }

  predicate AllDigits(s: string) {
    forall i :: 0 <= i < |s| ==> IsDigit(s[i])
  }

  /** The value of a run of decimal digits, most significant first. */
  function DigitsValue(s: string): (v: nat)
    requires AllDigits(s)
  {
    if s == [] then 0 else DigitsValue(s[..|s| - 1]) * 10 + DigitValue(s[|s| - 1])
  }

  lemma {:induction false} DigitsRoundTrip(n: nat)
    ensures DigitsValue(Digits(n)) == n
    decreases n
  {
    if n >= 10 {
      var s := Digits(n);
      assert s[..|s| - 1] == Digits(n / 10);
      DigitsRoundTrip(n / 10);
      DigitRoundTrip(n % 10);
    } else {
      DigitRoundTrip(n);
    }
  }

  /** Integer.parseInt: an optional sign and at least one digit, whose value must be an int;
      None is the NumberFormatException. */
  function ParseInt(s: string): (r: Option<int>)
    ensures r.Some? ==> IsInt(r.value)
    ensures r.Some? ==> |s| >= 1
  {
    if |s| >= 1 && (s[0] == '-' || s[0] == '+') then
      var body := s[1..];
      if body != [] && AllDigits(body) then
        var v: int := if s[0] == '-' then -(DigitsValue(body) as int) else DigitsValue(body);
        if IsInt(v) then Some(v) else None
      else None
    else if s != [] && AllDigits(s) then
      var v: int := DigitsValue(s);
      if IsInt(v) then Some(v) else None
    else None
  }

  datatype Option<T> = None | Some(value: T)

  /** toString and parseInt are inverse on ints. */
  lemma ShowParseRoundTrip(n: int)
    requires IsInt(n)
    ensures ParseInt(Show(n)) == Some(n)
  {
    if n < 0 {
      DigitsRoundTrip(-n);
      ParseNegative(Digits(-n));
      assert Show(n) == "-" + Digits(-n);
    } else {
      DigitsRoundTrip(n);
      ParseUnsigned(Digits(n));
    }
  }

  /** An unsigned digit string parses to its value when that is an int. */
  lemma ParseUnsigned(s: string)
    requires s != [] && AllDigits(s)
    ensures ParseInt(s) == if IsInt(DigitsValue(s)) then Some(DigitsValue(s)) else None
  {
    assert IsDigit(s[0]);
  }

  /** A '-' followed by a digit string parses to the negated value when that is an int. */
  lemma ParseNegative(body: string)
    requires body != [] && AllDigits(body)
    ensures var v := -(DigitsValue(body) as int); ParseInt("-" + body) == if IsInt(v) then Some(v) else None
  {
    assert ("-" + body)[1..] == body;
  }

  /** A digit string longer than ten digits without leading zeros is out of int range. */
  lemma {:induction false} DigitsValueLowerBound(s: string)
    requires AllDigits(s) && |s| >= 1 && s[0] != '0'
    ensures DigitsValue(s) >= Pow10(|s| - 1)
    decreases |s|
  {
    if |s| > 1 {
      DigitsValueLowerBound(s[..|s| - 1]);
    } else {
      assert DigitsValue(s) == DigitsValue([]) * 10 + DigitValue(s[0]);
    }
  }

  function Pow10(k: nat): (p: nat)
    ensures p >= 1
  {
    if k == 0 then 1 else 10 * Pow10(k - 1)
  }

  /** parseInt rejects a number with eleven or more significant digits. */
  lemma ElevenDigitsOverflow(s: string)
    requires AllDigits(s) && |s| >= 11 && s[0] != '0'
    ensures ParseInt(s) == None
    ensures ParseInt("-" + s) == None
  {
    DigitsValueLowerBound(s);
    Pow10Grows(|s| - 1, 10);
    assert ("-" + s)[1..] == s;
  }

  lemma {:induction false} Pow10Grows(a: nat, b: nat)
    requires a >= b
    ensures Pow10(a) >= Pow10(b)
    decreases a - b
  {
    if a > b {
      Pow10Grows(a - 1, b);
    }
  }
}
