/**
 * Decimal integer syntax as `strconv.Atoi` accepts it (an optional `+` or `-`
 * followed by at least one ASCII digit), and, as its partner, the decimal
 * rendering of an integer that the page's script puts into request paths.
 */
module Decimal {
  import opened Wrappers

  predicate IsDigit(c: char) {
    '0' <= c <= '9'
  }

  predicate AllDigits(s: string) {
    forall i :: 0 <= i < |s| ==> IsDigit(s[i])
  }

  /** A non-empty run of digits. */
  predicate IsDigits(s: string) {
    |s| > 0 && AllDigits(s)
  }

  predicate IsSign(c: char) {
    c == '+' || c == '-'
  }

  /** What `Atoi` accepts: digits, or one sign followed by digits. */
  predicate IsIntegerText(s: string) {
    IsDigits(s) || (|s| > 0 && IsSign(s[0]) && IsDigits(s[1..]))
  }

  function DigitValue(c: char): nat
    requires IsDigit(c)
  {
    c as int - '0' as int
  }

  function DigitChar(d: nat): (c: char)
    requires d < 10
    ensures IsDigit(c) && DigitValue(c) == d
  {
    ('0' as int + d) as char
  }

  /** The value of a digit run, read left to right as the parser does. */
  function DigitsValue(s: string): nat
    requires AllDigits(s)
  {
    if |s| == 0 then 0 else 10 * DigitsValue(s[..|s| - 1]) + DigitValue(s[|s| - 1])
  }

  /** `strconv.Atoi` without its range check: `None` is a syntax error. */
  function Atoi(s: string): (r: Option<int>)
    ensures r.Some? <==> IsIntegerText(s)
    ensures r.Some? ==> forall i :: 0 < i < |s| ==> IsDigit(s[i])
    ensures r.Some? && r.value < 0 ==> s[0] == '-'
  {
    if |s| == 0 then None
    else
      var digits := if IsSign(s[0]) then s[1..] else s;
      if |digits| == 0 || !AllDigits(digits) then None
      else
        var magnitude: int := DigitsValue(digits);
        Some(if s[0] == '-' then -magnitude else magnitude)
  }

  /** The shortest decimal digits of a natural number. */
  function NatDigits(n: nat): (s: string)
    ensures IsDigits(s)
  {
    if n < 10 then [DigitChar(n)] else NatDigits(n / 10) + [DigitChar(n % 10)]
  }

  /** The decimal rendering of an integer, with `-` for a negative one. */
  function Itoa(n: int): (s: string)
    ensures |s| > 0 && IsDigit(s[|s| - 1])
    ensures forall i :: 0 <= i < |s| ==> s[i] == '-' || IsDigit(s[i])
  {
    if n < 0 then "-" + NatDigits(-n) else NatDigits(n)
  }

  lemma {:induction false} NatDigitsValue(n: nat)
    ensures DigitsValue(NatDigits(n)) == n
  {
    if n >= 10 {
      var s := NatDigits(n);
      assert s[..|s| - 1] == NatDigits(n / 10);
      NatDigitsValue(n / 10);
    }
  }

  /** Parsing a rendered integer gives the integer back. */
  lemma AtoiItoa(n: int)
    ensures Atoi(Itoa(n)) == Some(n)
  {
    var s := Itoa(n);
    if n < 0 {
      assert s[1..] == NatDigits(-n);
      NatDigitsValue(-n);
    } else {
      NatDigitsValue(n);
    }
  }

  /** A leading zero does not change the value of a digit run. */
  lemma {:induction false} DigitsValueLeadingZero(s: string)
    requires AllDigits(s)
    ensures AllDigits("0" + s) && DigitsValue("0" + s) == DigitsValue(s)
  {
    var t := "0" + s;
    if |s| > 0 {
      assert t[..|t| - 1] == "0" + s[..|s| - 1];
      assert t[|t| - 1] == s[|s| - 1];
      DigitsValueLeadingZero(s[..|s| - 1]);
    }
  }

  /** Every ID also parses from its spelling with a leading zero. */
  lemma AtoiLeadingZero(s: string)
    requires IsDigits(s)
    ensures Atoi("0" + s) == Atoi(s)
  {
    DigitsValueLeadingZero(s);
  }

  /** Every ID also parses from its spelling with an explicit plus sign. */
  lemma AtoiPlusSign(s: string)
    requires IsDigits(s)
    ensures Atoi("+" + s) == Atoi(s)
  {
    assert ("+" + s)[1..] == s;
  }

  /** Leading zeros and an explicit plus sign are accepted, so one ID has many spellings. */
  lemma AtoiLenient()
    ensures Atoi("007") == Some(7) && Atoi("+7") == Some(7) && Atoi("-0") == Some(0)
    ensures Atoi("") == None && Atoi("+") == None && Atoi("7a") == None && Atoi(" 7") == None
  {
    assert DigitsValue("007") == 7 by {
      assert "007"[..2] == "00" && "00"[..1] == "0";
    }
    assert "+7"[1..] == "7";
    assert "-0"[1..] == "0";
    assert !AllDigits("7a") by { assert !IsDigit("7a"[1]); }
    assert !AllDigits(" 7") by { assert !IsDigit(" 7"[0]); }
  }
}
