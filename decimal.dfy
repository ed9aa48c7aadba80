/**
  Decimal text for Go's `int`: `strconv.Itoa` (used to pass a found project id
  on as a string, and by `%d` in error texts) and `strconv.Atoi` (used to read
  the `project_id` argument of the user-assignment tool).
 */
module Decimal {
  import opened Common

  const MinInt64: int := -0x8000_0000_0000_0000
  const MaxInt64: int := 0x7FFF_FFFF_FFFF_FFFF

  /** The range of Go's `int` on the 64-bit targets the adapter is built for. */
  predicate InInt64(n: int) {
    MinInt64 <= n <= MaxInt64
  }

  predicate IsDigit(c: char) {
    '0' <= c <= '9'
  }

  predicate AllDigits(s: string) {
    forall i :: 0 <= i < |s| ==> IsDigit(s[i])
  }

  function DigitChar(d: nat): (c: char)
    requires d < 10
    ensures IsDigit(c)
  {
    (48 + d) as char
  }

  function DigitValue(c: char): (d: nat)
    requires IsDigit(c)
    ensures d < 10
  {
    c as int - 48
  }

  /** The decimal digits of `n`, most significant first, with no leading zero. */
  function Digits(n: nat): (s: string)
    ensures |s| > 0 && AllDigits(s)
    ensures n == 0 ==> s == "0"
    ensures n > 0 ==> s[0] != '0'
  {
    if n < 10 then [DigitChar(n)] else Digits(n / 10) + [DigitChar(n % 10)]
  }

  /** The number a non-empty or empty run of digits denotes (the empty run denotes 0). */
  function DigitsValue(s: string): nat
    requires AllDigits(s)
  {
    if s == [] then 0 else DigitsValue(s[..|s| - 1]) * 10 + DigitValue(s[|s| - 1])
  }

  /** `strconv.Itoa`: an optional minus sign followed by the digits of the magnitude. */
  function Itoa(n: int): (s: string)
    ensures |s| > 0
    ensures s[0] == '-' <==> n < 0
    ensures AllDigits(s[1..])
    ensures n >= 0 ==> AllDigits(s)
    ensures n == 0 ==> s == "0"
    ensures n != 0 ==> |s| > (if n < 0 then 1 else 0) && s[if n < 0 then 1 else 0] != '0'
  {
    if n < 0 then "-" + Digits(-n) else Digits(n)
  }

  /** The text after an optional leading `+` or `-`. */
  function Body(s: string): string {
    if s != [] && (s[0] == '+' || s[0] == '-') then s[1..] else s
  }

  /** The number a sign-and-digits text denotes, leading zeros and a `+` notwithstanding. */
  function Signed(s: string): int
    requires AllDigits(Body(s))
  {
    if s != [] && s[0] == '-' then -(DigitsValue(Body(s)) as int) else DigitsValue(Body(s)) as int
  }

  /**
    `strconv.Atoi`: an optional `+` or `-`, then one or more decimal digits,
    and the value must fit Go's `int`; anything else is a syntax or range error.
   */
  function Atoi(s: string): (r: Option<int>)
    ensures r.Some? <==> Body(s) != [] && AllDigits(Body(s)) && InInt64(Signed(s))
    ensures r.Some? ==> r.value == Signed(s)
  {
    var body := Body(s);
    if body == [] || !AllDigits(body) then None
    else if InInt64(Signed(s)) then Some(Signed(s))
    else None
  }

  /** A leading zero does not change the value of a run of digits. */
  lemma {:induction false} LeadingZeroValue(d: string)
    requires AllDigits(d)
    ensures AllDigits("0" + d) && DigitsValue("0" + d) == DigitsValue(d)
  {
    if d != [] {
      var z := "0" + d;
      assert z[..|z| - 1] == "0" + d[..|d| - 1];
      assert z[|z| - 1] == d[|d| - 1];
      LeadingZeroValue(d[..|d| - 1]);
    }
  }

  /** `Atoi` reads "007" as 7: leading zeros are accepted and ignored. */
  lemma AtoiLeadingZero(d: string)
    requires d != [] && AllDigits(d)
    ensures Atoi("0" + d) == Atoi(d)
  {
    assert Body("0" + d) == "0" + d;
    LeadingZeroValue(d);
  }

  /** `Atoi` reads "+7" as 7: an explicit plus sign changes nothing. */
  lemma AtoiPlusSign(d: string)
    requires AllDigits(d)
    ensures Atoi("+" + d) == Atoi(d)
  {
    assert Body("+" + d) == d;
  }

  /** Texts `Itoa` never writes that `Atoi` still accepts. */
  lemma AtoiNonCanonical()
    ensures Atoi("+7") == Some(7)
    ensures Atoi("007") == Some(7)
    ensures Atoi("-0") == Some(0)
    ensures Atoi("") == None && Atoi("+") == None && Atoi("7a") == None
  {
    assert Body("+7") == "7";
    assert Body("007") == "007";
    assert DigitsValue("00") == 0 by {
      assert "00"[..1] == "0";
    }
    assert "007"[..2] == "00";
    assert Body("-0") == "0";
    assert !AllDigits(Body("7a")) by {
      assert !IsDigit("7a"[1]);
    }
  }

  lemma {:induction false} DigitsRoundTrip(n: nat)
    ensures DigitsValue(Digits(n)) == n
  {
    if n >= 10 {
      var s := Digits(n);
      assert s[..|s| - 1] == Digits(n / 10);
      DigitsRoundTrip(n / 10);
    }
  }

  /** Reading back what `Itoa` wrote gives the same number, for every Go `int`. */
  lemma AtoiItoa(n: int)
    requires InInt64(n)
    ensures Atoi(Itoa(n)) == Some(n)
  {
    var s := Itoa(n);
    if n < 0 {
      assert s[1..] == Digits(-n);
      assert Body(s) == Digits(-n);
      DigitsRoundTrip(-n);
    } else {
      assert Body(s) == s;
      DigitsRoundTrip(n);
    }
  }

  /** Distinct numbers have distinct decimal texts. */
  lemma ItoaInjective(a: int, b: int)
    requires Itoa(a) == Itoa(b)
    ensures a == b
  {
    if a < 0 {
      assert Itoa(a)[1..] == Digits(-a);
      assert Itoa(b)[1..] == Digits(-b);
      DigitsRoundTrip(-a);
      DigitsRoundTrip(-b);
    } else {
      DigitsRoundTrip(a);
      DigitsRoundTrip(b);
    }
  }
}
