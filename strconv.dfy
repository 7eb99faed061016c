/**
 * strconv.Atoi and the decimal formatting of fmt's %d, over Go's 64-bit int.
 */
module Strconv {
  import opened Results

  const MaxInt: int := 0x7FFF_FFFF_FFFF_FFFF
  const MinInt: int := -0x8000_0000_0000_0000

  /** Go's int on a 64-bit platform. */
  type Int = x: int | MinInt <= x <= MaxInt

  /** The two ways strconv.Atoi fails: ErrSyntax and ErrRange. */
  datatype NumError = ErrSyntax | ErrRange

  predicate IsDigit(c: char) {
    '0' <= c <= '9'
  }

  predicate AllDigits(s: string) {
    forall i :: 0 <= i < |s| ==> IsDigit(s[i])
  }

  function DigitValue(c: char): nat
    requires IsDigit(c)
  {
    (c as int) - ('0' as int)
  }

  function DigitChar(d: nat): char
    requires d < 10
  {
    ('0' as int + d) as char
  }

  /** The value of a run of decimal digits, most significant first. */
  function DigitsValue(s: string): nat
    requires AllDigits(s)
  {
    if s == [] then 0 else DigitsValue(s[..|s| - 1]) * 10 + DigitValue(s[|s| - 1])
  }

  /** The largest value strconv.ParseUint accepts into a uint64. */
  const MaxUint64: int := 0xFFFF_FFFF_FFFF_FFFF

  /** The length of the run of digits s starts with. */
  function DigitRun(s: string): (k: nat)
    ensures k <= |s| && AllDigits(s[..k])
    ensures k < |s| ==> !IsDigit(s[k])
  {
    if s == [] || !IsDigit(s[0]) then 0
    else
      var k := 1 + DigitRun(s[1..]);
      assert forall i :: 1 <= i < k ==> s[..k][i] == s[1..][..k - 1][i - 1];
      k
  }

  /**
   * strconv.Atoi (base 10): an optional '+' or '-', then one or more ASCII digits and
   * nothing else. The digits are read left to right into a uint64, so a value that
   * passes 2^64 - 1 is ErrRange even when a bad character follows it; a bad character
   * reached first is ErrSyntax. A value that fits a uint64 but not a 64-bit int is ErrRange.
   */
  function Atoi(s: string): Result<Int, NumError> {
    var negative := |s| > 0 && s[0] == '-';
    var digits := if |s| > 0 && (s[0] == '-' || s[0] == '+') then s[1..] else s;
    ParseDigits(negative, digits)
  }

  /** What follows the sign: the digits read left to right, then the signed range check. */
  function ParseDigits(negative: bool, digits: string): Result<Int, NumError> {
    var k := DigitRun(digits);
    if digits == [] then Failure(ErrSyntax)
    else if DigitsValue(digits[..k]) > MaxUint64 then Failure(ErrRange)
    else if k < |digits| then Failure(ErrSyntax)
    else
      assert digits[..k] == digits;
      var v: int := if negative then 0 - DigitsValue(digits) else DigitsValue(digits);
      if MinInt <= v <= MaxInt then Success(v) else Failure(ErrRange)
  }

  function Pow10(n: nat): (p: nat)
    ensures p >= 1
  {
    if n == 0 then 1 else 10 * Pow10(n - 1)
  }

  /** A run of n digits is worth less than 10^n. */
  lemma {:induction false} DigitsValueBound(s: string)
    requires AllDigits(s)
    ensures DigitsValue(s) < Pow10(|s|)
  {
    if s != [] {
      DigitsValueBound(s[..|s| - 1]);
    }
  }

  /** Reading further digits never lowers the value read so far. */
  lemma {:induction false} DigitsValuePrefix(s: string, j: nat)
    requires AllDigits(s) && j <= |s|
    ensures DigitsValue(s[..j]) <= DigitsValue(s)
  {
    if j < |s| {
      assert s[..|s| - 1][..j] == s[..j];
      DigitsValuePrefix(s[..|s| - 1], j);
    } else {
      assert s[..j] == s;
    }
  }

  /** The decimal digits of n, without leading zeros. */
  function NatDigits(n: nat): (r: string)
    ensures r != [] && AllDigits(r)
  {
    if n < 10 then [DigitChar(n)] else NatDigits(n / 10) + [DigitChar(n % 10)]
  }

  /** fmt.Sprintf("%d", n), which is also strconv.Itoa(n). */
  function Itoa(n: int): string {
    if n < 0 then "-" + NatDigits(-n) else NatDigits(n)
  }

  lemma {:induction false} NatDigitsValue(n: nat)
    ensures DigitsValue(NatDigits(n)) == n
  {
    if n >= 10 {
      var s := NatDigits(n);
      assert s[..|s| - 1] == NatDigits(n / 10);
      NatDigitsValue(n / 10);
    }
  }

  /** A sign followed by text starting with a digit: what follows the sign is parsed. */
  lemma AtoiAfterSign(sign: string, x: string)
    requires sign == "" || sign == "-" || sign == "+"
    requires x != [] && IsDigit(x[0])
    ensures Atoi(sign + x) == ParseDigits(sign == "-", x)
  {
    if sign == "" {
      assert sign + x == x;
    } else {
      assert (sign + x)[1..] == x;
    }
  }

  /** Nothing but digits worth at most 2^64 - 1: only the signed range is left to check. */
  lemma ParseOfDigits(negative: bool, d: string)
    requires d != [] && AllDigits(d) && DigitsValue(d) <= MaxUint64
    ensures var v: int := if negative then 0 - DigitsValue(d) else DigitsValue(d);
            ParseDigits(negative, d) == if MinInt <= v <= MaxInt then Success(v) else Failure(ErrRange)
  {
    assert DigitRun(d) == |d| && d[..|d|] == d;
  }

  /** Parsing what %d printed gives the number back, for every 64-bit int. */
  lemma AtoiItoa(n: Int)
    ensures Atoi(Itoa(n)) == Success(n)
  {
    if n < 0 {
      var d := NatDigits(0 - n as int);
      NatDigitsValue(0 - n as int);
      AtoiAfterSign("-", d);
      ParseOfDigits(true, d);
    } else {
      var d := NatDigits(n);
      NatDigitsValue(n);
      AtoiAfterSign("", d);
      ParseOfDigits(false, d);
      assert "" + d == Itoa(n);
    }
  }

  /**
   * Text containing a character that is neither a digit nor a leading sign is not a
   * number. The error is ErrSyntax whenever the text is too short for the digits in
   * front of that character to pass 2^64 - 1.
   */
  lemma AtoiRejectsNonDigit(s: string, i: nat)
    requires i < |s| && !IsDigit(s[i])
    requires i > 0 || (s[0] != '-' && s[0] != '+')
    ensures Atoi(s).Failure?
    ensures |s| <= 20 ==> Atoi(s) == Failure(ErrSyntax)
  {
    var digits := if s[0] == '-' || s[0] == '+' then s[1..] else s;
    var j := if s[0] == '-' || s[0] == '+' then i - 1 else i;
    assert digits[j] == s[i];
    var k := DigitRun(digits);
    assert k <= j;
    DigitsValueBound(digits[..k]);
    if |s| <= 20 {
      Pow10Mono(k, 19);
      Pow10Nineteen();
    }
  }

  lemma Pow10Nineteen()
    ensures Pow10(19) == 10_000_000_000_000_000_000
  {
    assert Pow10(1) == 10;
    assert Pow10(2) == 100;
    assert Pow10(3) == 1000;
    assert Pow10(4) == 10000;
    assert Pow10(5) == 100000;
    assert Pow10(6) == 1000000;
    assert Pow10(7) == 10000000;
    assert Pow10(8) == 100000000;
    assert Pow10(9) == 1000000000;
    assert Pow10(10) == 10000000000;
    assert Pow10(11) == 100000000000;
    assert Pow10(12) == 1000000000000;
    assert Pow10(13) == 10000000000000;
    assert Pow10(14) == 100000000000000;
    assert Pow10(15) == 1000000000000000;
    assert Pow10(16) == 10000000000000000;
    assert Pow10(17) == 100000000000000000;
    assert Pow10(18) == 1000000000000000000;
    assert Pow10(19) == 10000000000000000000;
  }

  lemma {:induction false} Pow10Mono(a: nat, b: nat)
    requires a <= b
    ensures Pow10(a) <= Pow10(b)
  {
    if a < b {
      Pow10Mono(a, b - 1);
    }
  }

  /** A run of digits followed by anything starts a digit run at least that long. */
  lemma {:induction false} DigitRunCovers(p: string, rest: string)
    requires AllDigits(p)
    ensures DigitRun(p + rest) >= |p|
    ensures (p + rest)[..|p|] == p
  {
    if p != [] {
      assert (p + rest)[1..] == p[1..] + rest;
      DigitRunCovers(p[1..], rest);
    }
  }

  /** Once the digits read pass 2^64 - 1, what follows them does not matter: the result is ErrRange. */
  lemma AtoiOverflowFirst(sign: string, p: string, rest: string)
    requires sign == "" || sign == "-" || sign == "+"
    requires AllDigits(p) && DigitsValue(p) > MaxUint64
    ensures Atoi(sign + p + rest) == Failure(ErrRange)
  {
    var digits := p + rest;
    assert p != [] && IsDigit(digits[0]);
    assert sign + p + rest == sign + digits;
    AtoiAfterSign(sign, digits);
    DigitRunCovers(p, rest);
    var k := DigitRun(digits);
    assert digits[..k][..|p|] == p;
    DigitsValuePrefix(digits[..k], |p|);
  }
}
