/** The two decimal conversions of Go's strconv package that the client relies
    on: `FormatInt(n, 10)`, which renders the request time and the numeric
    form fields, and `Atoi`, which reads the task counter. */
module Strconv {
  import opened Wire

  predicate IsDigit(c: char) { '0' <= c <= '9' }

  predicate AllDigits(s: string) { forall i :: 0 <= i < |s| ==> IsDigit(s[i]) }

  function DigitChar(d: nat): (c: char)
    requires d < 10
    ensures IsDigit(c) && c as int - '0' as int == d
  {
    ('0' as int + d) as char
  }

  /** The value of a run of decimal digits, most significant first. */
  function DigitsValue(s: string): nat
    requires AllDigits(s)
  {
    if s == [] then 0 else DigitsValue(s[..|s| - 1]) * 10 + (s[|s| - 1] as int - '0' as int)
  }

  /** Decimal digits of a natural number, without leading zeros. */
  function FormatNat(n: nat): string
  {
    if n < 10 then [DigitChar(n)] else FormatNat(n / 10) + [DigitChar(n % 10)]
  }

  /** strconv.FormatInt(n, 10): a minus sign exactly for negative numbers, then
      a non-empty run of digits whose value is the magnitude of n, with no
      leading zero (so 0 is "0" and every number has exactly one rendering). */
  function FormatInt(n: int): (s: string)
    ensures |s| > 0 && (s[0] == '-' <==> n < 0) && s[0] != '+'
    ensures AllDigits(Unsigned(s)) && Unsigned(s) != []
    ensures DigitsValue(Unsigned(s)) == if n < 0 then -n else n
    ensures |Unsigned(s)| > 1 ==> Unsigned(s)[0] != '0'
  {
    if n < 0 then
      FormatNatDigits(-n);
      assert ("-" + FormatNat(-n))[1..] == FormatNat(-n);
      "-" + FormatNat(-n)
    else
      FormatNatDigits(n);
      FormatNat(n)
  }

  /** The digits after an optional leading sign. */
  function Unsigned(s: string): string
    requires |s| > 0
  {
    if s[0] == '-' || s[0] == '+' then s[1..] else s
  }

  /** strconv.Atoi on a 64-bit platform: an optional '+' or '-', then at least
      one decimal digit and nothing else (no spaces, no underscores); a value
      outside the int64 range is an error (ErrRange). */
  function Atoi(s: string): (r: Option<Int64>)
    ensures r.Some? ==> |s| > 0 && Unsigned(s) != [] && AllDigits(Unsigned(s))
    ensures r.Some? ==> DigitsValue(Unsigned(s)) == if s[0] == '-' then -(r.value as int) else r.value as int
    ensures r.None? && |s| > 0 && Unsigned(s) != [] && AllDigits(Unsigned(s)) ==>
      DigitsValue(Unsigned(s)) > if s[0] == '-' then 0x8000_0000_0000_0000 else 0x7fff_ffff_ffff_ffff
  {
    if s == [] then None
    else
      var digits := Unsigned(s);
      if digits == [] || !AllDigits(digits) then None
      else
        var m: int := DigitsValue(digits);
        var v := if s[0] == '-' then -m else m;
        if -0x8000_0000_0000_0000 <= v <= 0x7fff_ffff_ffff_ffff then Some(v) else None
  }

  /** FormatNat writes digits only, at least one of them, whose value is n, and
      starts with '0' only when n is 0 (then "0" is the whole rendering). */
  lemma {:induction false} FormatNatDigits(n: nat)
    ensures |FormatNat(n)| > 0 && AllDigits(FormatNat(n))
    ensures DigitsValue(FormatNat(n)) == n
    ensures FormatNat(n)[0] != '-' && FormatNat(n)[0] != '+'
    ensures n > 0 ==> FormatNat(n)[0] != '0'
    ensures |FormatNat(n)| > 1 ==> n >= 10
  {
    var s := FormatNat(n);
    if n >= 10 {
      FormatNatDigits(n / 10);
      var p := FormatNat(n / 10);
      assert s == p + [DigitChar(n % 10)];
      assert s[..|s| - 1] == p;
      assert s[0] == p[0];
    }
  }

  /** A digit run with no leading zero, unless it is the single digit "0". */
  predicate Canonical(s: string) { s != [] && AllDigits(s) && (|s| > 1 ==> s[0] != '0') }

  /** A digit run that starts with a non-zero digit has a value of at least 1. */
  lemma {:induction false} LeadingDigitPositive(s: string)
    requires s != [] && AllDigits(s) && s[0] != '0'
    ensures DigitsValue(s) >= 1
  {
    if |s| > 1 {
      var p := s[..|s| - 1];
      assert p[0] == s[0];
      LeadingDigitPositive(p);
    }
  }

  /** Two canonical digit runs with the same value are the same string. */
  lemma {:induction false} CanonicalUnique(s: string, t: string)
    requires Canonical(s) && Canonical(t) && DigitsValue(s) == DigitsValue(t)
    ensures s == t
  {
    var p, q := s[..|s| - 1], t[..|t| - 1];
    if |s| > 1 {
      assert p[0] == s[0];
      LeadingDigitPositive(p);
    }
    if |t| > 1 {
      assert q[0] == t[0];
      LeadingDigitPositive(q);
    }
    if |s| > 1 && |t| > 1 {
      assert p[0] == s[0] && q[0] == t[0];
      CanonicalUnique(p, q);
      assert s == p + [s[|s| - 1]] && t == q + [t[|t| - 1]];
    }
  }

  /** FormatInt's contract pins its result: any string with a minus sign exactly
      for negative n, then a canonical digit run whose value is the magnitude of
      n, is FormatInt(n). */
  lemma DecimalRenderingUnique(n: int, s: string)
    requires |s| > 0 && (s[0] == '-' <==> n < 0) && s[0] != '+'
    requires Canonical(Unsigned(s)) && DigitsValue(Unsigned(s)) == if n < 0 then -n else n
    ensures s == FormatInt(n)
  {
    var f := FormatInt(n);
    CanonicalUnique(Unsigned(s), Unsigned(f));
    if n < 0 {
      assert s == [s[0]] + Unsigned(s) && f == [f[0]] + Unsigned(f);
    }
  }

  /** Reading back a formatted int64 gives the same number: the panel can recover
      `request_time`, and a counter the panel writes is the one the client reads. */
  lemma AtoiFormatInt(n: Int64)
    ensures Atoi(FormatInt(n)) == Some(n)
  {
  }

  /** Anything that is not a sign followed by digits is rejected, for instance a
      trailing newline after the digits. */
  lemma AtoiRejectsNonDigit(s: string, i: nat)
    requires 0 < i < |s| && !IsDigit(s[i])
    ensures Atoi(s) == None
  {
  }

  lemma AtoiExamples()
    ensures Atoi("3") == Some(3)
    ensures Atoi("-12") == Some(-12)
    ensures Atoi("+007") == Some(7)
    ensures Atoi("") == None && Atoi("-") == None && Atoi("abc") == None
  {
    assert DigitsValue("3") == DigitsValue("") * 10 + 3;
    assert "-12"[1..] == "12" && "12"[..1] == "1";
    assert "+007"[1..] == "007" && "007"[..2] == "00" && "00"[..1] == "0";
    assert !IsDigit("abc"[0]);
  }
}
