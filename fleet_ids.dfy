/**
 * Vehicle identifiers of the fleet: "V-" + the profile name in upper case + "-" + the
 * vehicle's 1-based number, zero-padded to at least three digits.
 */
module FleetIds {

  predicate IsDigit(c: char) { '0' <= c <= '9' }

  function DigitChar(d: nat): (c: char)
    requires d < 10
    ensures IsDigit(c) && c as int - '0' as int == d
  {
    ('0' as int + d) as char
  }

  /** The decimal numeral of n, without leading zeros. */
  function Decimal(n: nat): (s: string)
    ensures |s| >= 1 && forall i :: 0 <= i < |s| ==> IsDigit(s[i])
    decreases n
  {
    if n < 10 then [DigitChar(n)] else Decimal(n / 10) + [DigitChar(n % 10)]
  }

  /** Python's `f"{n:03d}"` for a non-negative n: at least three digits, zero-padded. */
  function ZeroPad3(n: nat): (s: string)
    ensures |s| >= 3 && forall i :: 0 <= i < |s| ==> IsDigit(s[i])
  {
    var d := Decimal(n);
    if |d| >= 3 then d else seq(3 - |d|, _ => '0') + d
  }

  /** The value of a string of digits. */
  function ParseDecimal(s: string): nat
    requires forall i :: 0 <= i < |s| ==> IsDigit(s[i])
  {
    if s == [] then 0
    else
      assert IsDigit(s[|s| - 1]);
      ParseDecimal(s[..|s| - 1]) * 10 + (s[|s| - 1] as int - '0' as int)
  }

  lemma {:induction false} DecimalRoundTrip(n: nat)
    ensures ParseDecimal(Decimal(n)) == n
    decreases n
  {
    if n >= 10 {
      var s := Decimal(n);
      assert s[..|s| - 1] == Decimal(n / 10);
      DecimalRoundTrip(n / 10);
    }
  }

  /** Leading zeros do not change the value of a numeral. */
  lemma {:induction false} LeadingZeros(z: nat, s: string)
    requires forall i :: 0 <= i < |s| ==> IsDigit(s[i])
    ensures ParseDecimal(seq(z, _ => '0') + s) == ParseDecimal(s)
    decreases |s|
  {
    var t := seq(z, _ => '0') + s;
    if s == [] {
      assert t == seq(z, _ => '0');
      ZerosAreZero(z);
    } else {
      assert t[..|t| - 1] == seq(z, _ => '0') + s[..|s| - 1];
      LeadingZeros(z, s[..|s| - 1]);
    }
  }

  lemma {:induction false} ZerosAreZero(z: nat)
    ensures ParseDecimal(seq(z, _ => '0')) == 0
  {
    if z > 0 {
      assert seq(z, _ => '0')[..z - 1] == seq(z - 1, _ => '0');
      ZerosAreZero(z - 1);
    }
  }

  /** The padded numeral still denotes n, so distinct numbers get distinct numerals. */
  lemma ZeroPad3RoundTrip(n: nat)
    ensures ParseDecimal(ZeroPad3(n)) == n
  {
    DecimalRoundTrip(n);
    var d := Decimal(n);
    if |d| < 3 {
      LeadingZeros(3 - |d|, d);
    }
  }

  /** `str.upper()` on ASCII letters; other characters are kept. */
  function AsciiUpper(s: string): (u: string)
    ensures |u| == |s|
    ensures forall i :: 0 <= i < |s| ==> !('a' <= u[i] <= 'z')
    ensures forall i :: 0 <= i < |s| && !('a' <= s[i] <= 'z') ==> u[i] == s[i]
  {
    seq(|s|, i requires 0 <= i < |s| =>
      if 'a' <= s[i] <= 'z' then (s[i] as int - 32) as char else s[i])
  }

  /** The id of the vehicle with 0-based index i whose profile is called `name`. */
  function VehicleId(name: string, i: nat): string {
    "V-" + AsciiUpper(name) + "-" + ZeroPad3(i + 1)
  }

  /**
   * Two strings of the form prefix, separator, separator-free tail that are equal split the
   * same way: the last separator decides both parts.
   */
  lemma SplitAtLast(sep: char, p1: string, d1: string, p2: string, d2: string)
    requires sep !in d1 && sep !in d2
    requires p1 + [sep] + d1 == p2 + [sep] + d2
    ensures p1 == p2 && d1 == d2
  {
    var s := p1 + [sep] + d1;
    SepAt(sep, p1, d1);
    SepAt(sep, p2, d2);
    if |d1| < |d2| {
      assert false;
    } else if |d2| < |d1| {
      assert false;
    }
    assert d1 == s[|s| - |d1|..];
    assert p1 == s[..|p1|];
  }

  lemma SepAt(sep: char, p: string, d: string)
    ensures |p + [sep] + d| == |p| + 1 + |d| && (p + [sep] + d)[|p|] == sep
  {
  }

  /** Different positions in the fleet always get different ids, whatever the profile names. */
  lemma VehicleIdsDistinct(name1: string, i: nat, name2: string, j: nat)
    requires i != j
    ensures VehicleId(name1, i) != VehicleId(name2, j)
  {
    var d1, d2 := ZeroPad3(i + 1), ZeroPad3(j + 1);
    if VehicleId(name1, i) == VehicleId(name2, j) {
      IdSplit(name1, i);
      IdSplit(name2, j);
      SplitAtLast('-', "V-" + AsciiUpper(name1), d1, "V-" + AsciiUpper(name2), d2);
      ZeroPad3RoundTrip(i + 1);
      ZeroPad3RoundTrip(j + 1);
    }
  }

  /** An id is its prefix, a '-' and a numeral that holds no '-'. */
  lemma IdSplit(name: string, i: nat)
    ensures VehicleId(name, i) == ("V-" + AsciiUpper(name)) + ['-'] + ZeroPad3(i + 1)
    ensures '-' !in ZeroPad3(i + 1)
  {
    var d := ZeroPad3(i + 1);
    forall k | 0 <= k < |d| ensures d[k] != '-' { assert IsDigit(d[k]); }
  }

  /** The third vehicle of profile "normal" is "V-NORMAL-003"; the thousandth is "V-NORMAL-1000". */
  lemma VehicleIdExamples()
    ensures VehicleId("normal", 2) == "V-NORMAL-003"
    ensures VehicleId("normal", 999) == "V-NORMAL-1000"
  {
  }
}
