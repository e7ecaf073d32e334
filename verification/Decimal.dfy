/** Decimal text of machine integers, as strconv prints and parses it. */
module Decimal {
  import opened Options

  const MIN_INT := -0x8000_0000_0000_0000
  const MAX_INT := 0x7fff_ffff_ffff_ffff

  predicate IsInt(n: int) { MIN_INT <= n <= MAX_INT }

  predicate IsDigit(c: char) { '0' <= c <= '9' }

  function DigitChar(d: nat): char
    requires d < 10
  {
    '0' + d as char
  }

  function Digits(n: nat): string {
    if n < 10 then [DigitChar(n)] else Digits(n / 10) + [DigitChar(n % 10)]
  }

  /** strconv.Itoa */
  function Itoa(n: int): string { if n < 0 then "-" + Digits(-n) else Digits(n) }

  /** The value of a non-empty text of digits and nothing else. */
  function ParseDigits(s: string): Option<nat> {
    if s == "" || !IsDigit(s[|s| - 1]) then None
    else
      var d := s[|s| - 1] as int - '0' as int;
      if |s| == 1 then Some(d)
      else
        match ParseDigits(s[..|s| - 1])
        case Some(n) => Some(10 * n + d)
        case None => None
  }

  /** strconv.Atoi: an optional sign, at least one digit and nothing else, within 64 bits. Leading zeros
      and an explicit plus are accepted. */
  function Atoi(s: string): Option<int> {
    if s == "" then None
    else
      match ParseDigits(if s[0] == '-' || s[0] == '+' then s[1..] else s)
      case None => None
      case Some(magnitude) =>
        var n := if s[0] == '-' then 0 - magnitude else magnitude;
        if IsInt(n) then Some(n) else None
  }

  lemma {:induction false} ParseOfDigits(n: nat)
    ensures Digits(n) != "" && ParseDigits(Digits(n)) == Some(n) && IsDigit(Digits(n)[0])
  {
    if n >= 10 {
      var s := Digits(n);
      ParseOfDigits(n / 10);
      assert s[..|s| - 1] == Digits(n / 10);
    }
  }

  /** Parsing undoes printing, for every 64-bit integer. */
  lemma RoundTrip(n: int)
    requires IsInt(n)
    ensures Atoi(Itoa(n)) == Some(n)
  {
    var digits := Digits(if n < 0 then -n else n);
    ParseOfDigits(if n < 0 then -n else n);
    assert digits[0] != '-' && digits[0] != '+';
    assert ("-" + digits)[1..] == digits;
  }

  lemma PrintsSomething(n: int)
    ensures Itoa(n) != ""
  {}

  /** Printing is injective. */
  lemma ItoaInjective(m: int, n: int)
    requires IsInt(m) && IsInt(n) && Itoa(m) == Itoa(n)
    ensures m == n
  {
    RoundTrip(m);
    RoundTrip(n);
  }

  // ----- What the texts mean -----

  function Pow10(n: nat): nat { if n == 0 then 1 else 10 * Pow10(n - 1) }

  ghost predicate AllDigits(s: string) { forall i :: 0 <= i < |s| ==> IsDigit(s[i]) }

  /** The positional value of a decimal text: each digit times its power of ten. */
  function Value(s: string): nat {
    if s == "" || !IsDigit(s[0]) then 0 else (s[0] as int - '0' as int) * Pow10(|s| - 1) + Value(s[1..])
  }

  lemma TenTimes(d: nat, p: nat)
    ensures d * (10 * p) == 10 * (d * p)
  {}

  lemma {:induction false} ValueAppend(s: string, c: char)
    requires AllDigits(s) && IsDigit(c)
    ensures Value(s + [c]) == 10 * Value(s) + (c as int - '0' as int)
  {
    if s == "" {
      assert [c][1..] == "";
    } else {
      assert (s + [c])[1..] == s[1..] + [c];
      ValueAppend(s[1..], c);
      TenTimes(s[0] as int - '0' as int, Pow10(|s| - 1));
    }
  }

  /** A text parses exactly when it is made of digits, and its value is the positional one. */
  lemma {:induction false} ParseIs(s: string)
    ensures ParseDigits(s) == if s != "" && AllDigits(s) then Some(Value(s)) else None
  {
    if s != "" {
      var n := |s| - 1;
      ParseIs(s[..n]);
      assert s == s[..n] + [s[n]];
      if AllDigits(s) {
        ValueAppend(s[..n], s[n]);
      }
    }
  }

  /** A printed number is made of digits, has no leading zero unless it has one digit, and its positional
      value is the number. */
  lemma {:induction false} DigitsAre(n: nat)
    ensures Digits(n) != "" && AllDigits(Digits(n)) && Value(Digits(n)) == n
    ensures n > 0 ==> Digits(n)[0] != '0'
  {
    if n >= 10 {
      DigitsAre(n / 10);
      ValueAppend(Digits(n / 10), DigitChar(n % 10));
    } else {
      assert [DigitChar(n)][1..] == "";
    }
  }

  predicate Signed(s: string) { s != "" && (s[0] == '-' || s[0] == '+') }

  /** Exactly which texts are integers of 64 bits, and which: an optional sign, digits, and a positional
      value within the range. */
  lemma AtoiIff(s: string, n: int)
    ensures Atoi(s) == Some(n) <==>
            var digits := if Signed(s) then s[1..] else s;
            && digits != "" && AllDigits(digits)
            && n == (if Signed(s) && s[0] == '-' then 0 - Value(digits) else Value(digits))
            && -9_223_372_036_854_775_808 <= n <= 9_223_372_036_854_775_807
  {
    ParseIs(if Signed(s) then s[1..] else s);
  }

  /** What is printed: a minus sign exactly for negative numbers, then the digits of the magnitude. */
  lemma ItoaIs(n: int)
    ensures n < 0 ==> Itoa(n)[..1] == "-" && AllDigits(Itoa(n)[1..]) && Value(Itoa(n)[1..]) == -n
    ensures n >= 0 ==> AllDigits(Itoa(n)) && Value(Itoa(n)) == n
    ensures n > 0 ==> Itoa(n)[0] != '0'
  {
    DigitsAre(if n < 0 then -n else n);
  }
}
