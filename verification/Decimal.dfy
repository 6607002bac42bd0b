/** Decimal integers as fmt prints them with %d and as strconv.Atoi reads them. */
module Decimal {
  import opened Wrappers

  predicate IsDigit(c: char) { '0' <= c <= '9' }

  predicate Digits(s: string) {
    s != "" && forall i | 0 <= i < |s| :: IsDigit(s[i])
  }

  function DigitChar(d: nat): (c: char)
    requires d < 10
    ensures IsDigit(c) && c as int - '0' as int == d
  {
    '0' + d as char
  }

  function PrintNat(n: nat): (s: string)
    ensures Digits(s)
    ensures |s| > 1 ==> s[0] != '0'
    ensures n > 0 ==> s[0] != '0'
  {
    if n < 10 then [DigitChar(n)] else PrintNat(n / 10) + [DigitChar(n % 10)]
  }

  function PrintInt(n: int): (s: string)
    ensures s != ""
    ensures n >= 0 ==> Digits(s)
    ensures n < 0 ==> s[0] == '-' && Digits(s[1..])
  {
    if n < 0 then "-" + PrintNat(-n) else PrintNat(n)
  }

  function DigitsValue(s: string): (v: int)
    requires forall i | 0 <= i < |s| :: IsDigit(s[i])
    ensures v >= 0
  {
    if s == "" then 0
    else
      assert IsDigit(s[|s| - 1]);
      DigitsValue(s[..|s| - 1]) * 10 + (s[|s| - 1] as int - '0' as int)
  }

  const MAX_INT: int := 0x7fff_ffff_ffff_ffff
  const MIN_INT: int := -0x8000_0000_0000_0000

  /** An optional minus sign and digits, without a bound. */
  function ReadInt(s: string): Option<int> {
    if Digits(s) then Some(DigitsValue(s))
    else if s != "" && s[0] == '-' && Digits(s[1..]) then Some(-DigitsValue(s[1..]))
    else None
  }

  /** strconv.Atoi on a 64-bit int: an optional sign, at least one digit, and no overflow. */
  function Atoi(s: string): (r: Option<int>) {
    var neg := s != "" && s[0] == '-';
    var body := if s != "" && (s[0] == '-' || s[0] == '+') then s[1..] else s;
    if !Digits(body) then None
    else
      var v: int := if neg then -DigitsValue(body) else DigitsValue(body);
      if MIN_INT <= v <= MAX_INT then Some(v) else None
  }

  lemma {:induction false} PrintNatValue(n: nat)
    ensures DigitsValue(PrintNat(n)) == n
  {
    if n >= 10 {
      PrintNatValue(n / 10);
      var s := PrintNat(n);
      assert s[..|s| - 1] == PrintNat(n / 10);
    } else {
      assert PrintNat(n)[..0] == "";
    }
  }

  /** Reading undoes printing for every 64-bit integer. */
  lemma AtoiPrintInt(n: int)
    requires MIN_INT <= n <= MAX_INT
    ensures Atoi(PrintInt(n)) == Some(n)
  {
    if n < 0 {
      PrintNatValue(-n);
      assert PrintInt(n)[1..] == PrintNat(-n);
    } else {
      PrintNatValue(n);
    }
  }

  lemma ReadPrintInt(n: int)
    ensures ReadInt(PrintInt(n)) == Some(n)
  {
    if n < 0 {
      PrintNatValue(-n);
      assert PrintInt(n)[1..] == PrintNat(-n);
      assert !IsDigit(PrintInt(n)[0]);
    } else {
      PrintNatValue(n);
    }
  }

  lemma PrintIntInjective(a: int, b: int)
    ensures PrintInt(a) == PrintInt(b) <==> a == b
  {
    ReadPrintInt(a);
    ReadPrintInt(b);
  }
}
