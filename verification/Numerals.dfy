/** Decimal numerals as the standard formatter prints them, and a reader for them. */
module Numerals {
  import opened Wire

  function DigitChar(d: nat): char
    requires d < 10
  {
    '0' + d as char
  }

  predicate IsDigit(c: char) {
    '0' <= c <= '9'
  }

  function DigitValue(c: char): nat
    requires IsDigit(c)
  {
    c as int - '0' as int
  }

  predicate AllDigits(s: string) {
    forall i :: 0 <= i < |s| ==> IsDigit(s[i])
  }

  function Natural(n: nat): (s: string)
    ensures s != [] && AllDigits(s)
  {
    if n < 10 then [DigitChar(n)] else Natural(n / 10) + [DigitChar(n % 10)]
  }

  function Decimal(n: int): string {
    if n < 0 then "-" + Natural(-n) else Natural(n)
  }

  function ReadNatural(s: string): nat
    requires AllDigits(s)
  {
    if s == [] then 0 else 10 * ReadNatural(s[..|s| - 1]) + DigitValue(s[|s| - 1])
  }

  /** Reads an optionally signed numeral. */
  function ReadDecimal(s: string): Option<int> {
    if |s| > 1 && s[0] == '-' && AllDigits(s[1..]) then Some(-(ReadNatural(s[1..]) as int))
    else if s != [] && AllDigits(s) then Some(ReadNatural(s))
    else None
  }

  lemma {:induction false} ReadsWhatWasPrinted(n: nat)
    ensures ReadNatural(Natural(n)) == n
  {
    if n >= 10 {
      ReadsWhatWasPrinted(n / 10);
      var s := Natural(n);
      assert s[..|s| - 1] == Natural(n / 10);
    } else {
      assert [DigitChar(n)][..0] == [];
    }
  }

  /** The ten digits. */
  lemma DigitsAreDecimal(n: nat)
    requires n < 10
    ensures Natural(n) == ["0123456789"[n]]
  {
  }

  lemma LastDigitIsRemainder(n: nat)
    requires n >= 10
    ensures Natural(n) == Natural(n / 10) + Natural(n % 10)
  {
  }

  /** Every integer is recovered from its numeral. */
  lemma DecimalRoundTrip(n: int)
    ensures ReadDecimal(Decimal(n)) == Some(n)
  {
    if n < 0 {
      ReadsWhatWasPrinted(-n);
      assert Decimal(n)[1..] == Natural(-n);
    } else {
      ReadsWhatWasPrinted(n);
      assert IsDigit(Decimal(n)[0]);
    }
  }

  /** So distinct integers never share a numeral. */
  lemma DecimalIsInjective(m: int, n: int)
    requires Decimal(m) == Decimal(n)
    ensures m == n
  {
    DecimalRoundTrip(m);
    DecimalRoundTrip(n);
  }
}
