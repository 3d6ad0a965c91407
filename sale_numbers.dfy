/** Human-readable sale numbers: "SL" followed by the running sale count plus one,
    left-padded with zeros to at least six digits (`SL000042`). */
module SaleNumbers {

  predicate IsDigit(c: char) {
    '0' <= c <= '9'
  }

  predicate AllDigits(s: string) {
    forall i :: 0 <= i < |s| ==> IsDigit(s[i])
  }

  function DigitValue(c: char): (d: nat)
    requires IsDigit(c)
    ensures d < 10
  {
    c as int - '0' as int
  }

  function DigitChar(d: nat): (c: char)
    requires d < 10
    ensures IsDigit(c) && DigitValue(c) == d
  {
    ('0' as int + d) as char
  }

  /** JavaScript's `String(n)` for a non-negative integer: decimal, no leading zeros. */
  function Decimal(n: nat): (s: string)
    ensures 1 <= |s| && AllDigits(s)
    ensures s[0] == '0' <==> n == 0
  {
    if n < 10 then [DigitChar(n)] else Decimal(n / 10) + [DigitChar(n % 10)]
  }

  /** The value of a string of decimal digits (leading zeros allowed). */
  function ParseDecimal(s: string): nat
    requires AllDigits(s)
  {
    if s == [] then 0 else ParseDecimal(s[..|s| - 1]) * 10 + DigitValue(s[|s| - 1])
  }

  /** JavaScript's `s.padStart(width, fill)` for a one-character fill. */
  function PadStart(s: string, width: nat, fill: char): (r: string)
    ensures |r| == if |s| >= width then |s| else width
    ensures r[|r| - |s|..] == s
    ensures forall i :: 0 <= i < |r| - |s| ==> r[i] == fill
    decreases width - |s|
  {
    if |s| >= width then s else PadStart([fill] + s, width, fill)
  }

  /** The sale number given to a new sale when `count` sales already exist. */
  function SaleNumber(count: nat): string {
    "SL" + PadStart(Decimal(count + 1), 6, '0')
  }

  lemma {:induction false} ParseDecimalOfDecimal(n: nat)
    ensures ParseDecimal(Decimal(n)) == n
  {
    if n >= 10 {
      var s := Decimal(n);
      assert s[..|s| - 1] == Decimal(n / 10);
      ParseDecimalOfDecimal(n / 10);
    }
  }

  lemma {:induction false} ParseIgnoresLeadingZeros(z: string, s: string)
    requires forall i :: 0 <= i < |z| ==> z[i] == '0'
    requires AllDigits(s)
    ensures AllDigits(z + s) && ParseDecimal(z + s) == ParseDecimal(s)
  {
    if s == [] {
      assert z + s == z;
      ZerosParseToZero(z);
    } else {
      var t := z + s;
      assert t[..|t| - 1] == z + s[..|s| - 1];
      ParseIgnoresLeadingZeros(z, s[..|s| - 1]);
    }
  }

  lemma {:induction false} ZerosParseToZero(z: string)
    requires forall i :: 0 <= i < |z| ==> z[i] == '0'
    ensures AllDigits(z) && ParseDecimal(z) == 0
  {
    if z != [] {
      ZerosParseToZero(z[..|z| - 1]);
    }
  }

  /** Stripping "SL" from a sale number and parsing the rest gives back count + 1. */
  lemma SaleNumberRoundTrip(count: nat)
    ensures var r := SaleNumber(count);
      && |r| >= 8 && r[..2] == "SL" && AllDigits(r[2..])
      && ParseDecimal(r[2..]) == count + 1
  {
    var d := Decimal(count + 1);
    var p := PadStart(d, 6, '0');
    assert SaleNumber(count)[2..] == p;
    var z := p[..|p| - |d|];
    assert p == z + d;
    ParseIgnoresLeadingZeros(z, d);
    ParseDecimalOfDecimal(count + 1);
  }

  /** Distinct counts give distinct sale numbers. */
  lemma SaleNumberInjective(a: nat, b: nat)
    ensures SaleNumber(a) == SaleNumber(b) ==> a == b
  {
    SaleNumberRoundTrip(a);
    SaleNumberRoundTrip(b);
  }

  lemma SaleNumberExample()
    ensures SaleNumber(41) == "SL000042"
  {
    assert Decimal(42) == "42" by {
      assert Decimal(4) == "4";
    }
  }

  /** Past six digits the number simply grows. */
  lemma SaleNumberPastSixDigits()
    ensures SaleNumber(999999) == "SL1000000"
  {
    assert Decimal(1000000) == "1000000" by {
      assert Decimal(1) == "1";
      assert Decimal(10) == "10";
      assert Decimal(100) == "100";
      assert Decimal(1000) == "1000";
      assert Decimal(10000) == "10000";
      assert Decimal(100000) == "100000";
    }
  }
}
