/** Decimal numerals: `str(int)`, the zero-padded `{n:06d}`, and reading a numeral back. */
module Decimal {
  import opened Wrappers

  predicate IsDigit(c: char)
  {
    '0' <= c <= '9'
  }

  function DigitChar(d: nat): (c: char)
    requires d < 10
    ensures IsDigit(c) && c as int == '0' as int + d
  {
    ('0' as int + d) as char
  }

  function Digits(n: nat): (s: string)
    ensures s != "" && forall c :: c in s ==> IsDigit(c)
  {
    if n < 10 then [DigitChar(n)] else Digits(n / 10) + [DigitChar(n % 10)]
  }

  function Text(n: int): string
  {
    if n < 0 then "-" + Digits(-n) else Digits(n)
  }

  function ValueOf(s: string): nat
    requires forall c :: c in s ==> IsDigit(c)
  {
    if s == "" then 0
    else
      assert IsDigit(s[|s| - 1]);
      10 * ValueOf(s[..|s| - 1]) + (s[|s| - 1] as int - '0' as int)
  }

  lemma {:induction false} ValueOfDigits(n: nat)
    ensures ValueOf(Digits(n)) == n
  {
    var s := Digits(n);
    if n < 10 {
      assert s[..0] == "";
    } else {
      ValueOfDigits(n / 10);
      assert s[..|s| - 1] == Digits(n / 10);
    }
  }

  lemma {:induction false} LeadingZeroOnlyInZero(n: nat)
    ensures Digits(n)[0] == '0' ==> n == 0
  {
    if n >= 10 {
      LeadingZeroOnlyInZero(n / 10);
    }
  }

  function DigitRun(s: string): (k: nat)
    ensures k <= |s|
    ensures forall i :: 0 <= i < k ==> IsDigit(s[i])
    ensures k < |s| ==> !IsDigit(s[k])
  {
    if s != "" && IsDigit(s[0]) then 1 + DigitRun(s[1..]) else 0
  }

  predicate StartsWithDigit(s: string)
  {
    s != "" && IsDigit(s[0])
  }

  lemma {:induction false} DigitRunOf(d: string, rest: string)
    requires forall c :: c in d ==> IsDigit(c)
    requires !StartsWithDigit(rest)
    ensures DigitRun(d + rest) == |d|
  {
    if d == "" {
      assert d + rest == rest;
    } else {
      assert d[0] in d;
      assert (d + rest)[1..] == d[1..] + rest;
      DigitRunOf(d[1..], rest);
    }
  }

  // The digits of an integer literal of section 6 of RFC 8259: no superfluous leading zero.
  function ReadNat(s: string): (r: Option<(nat, string)>)
    ensures r.Some? ==> |r.value.1| < |s|
  {
    var k := DigitRun(s);
    if k == 0 || (k > 1 && s[0] == '0') then None else Some((ValueOf(s[..k]), s[k..]))
  }

  function ReadInt(s: string): (r: Option<(int, string)>)
    ensures r.Some? ==> |r.value.1| < |s|
  {
    if s != "" && s[0] == '-' then
      var n := ReadNat(s[1..]);
      if n.None? then None else Some((-(n.value.0 as int), n.value.1))
    else
      var n := ReadNat(s);
      if n.None? then None else Some((n.value.0, n.value.1))
  }

  // A sign for negative numbers only, and no zero in front of another digit.
  lemma TextIs(n: int)
    ensures var digits := if n < 0 then Text(n)[1..] else Text(n);
            && (n < 0 ==> Text(n)[0] == '-') && (forall c :: c in digits ==> IsDigit(c)) && ValueOf(digits) == (if n < 0 then -n else n)
            && (digits[0] == '0' ==> n == 0 && digits == "0")
  {
    var m := if n < 0 then -n else n;
    assert n < 0 ==> ("-" + Digits(m))[1..] == Digits(m);
    ValueOfDigits(m);
    LeadingZeroOnlyInZero(m);
    assert m == 0 ==> Digits(m) == "0";
  }

  lemma LeadingZeroRefused(rest: string)
    requires StartsWithDigit(rest)
    ensures ReadNat("0" + rest).None? && ReadInt("0" + rest).None? && ReadInt("-0" + rest).None?
  {
    var s := "0" + rest;
    assert s[1..] == rest && DigitRun(s) == 1 + DigitRun(rest) && DigitRun(rest) > 0;
    assert "-0" + rest == "-" + s;
    ReadNegative(s);
  }

  lemma ReadNatOf(m: nat, rest: string)
    requires !StartsWithDigit(rest)
    ensures ReadNat(Digits(m) + rest) == Some((m, rest))
  {
    var d := Digits(m);
    ValueOfDigits(m);
    DigitRunOf(d, rest);
    LeadingZeroOnlyInZero(m);
    assert (d + rest)[..|d|] == d && (d + rest)[|d|..] == rest;
  }

  lemma ReadNegative(t: string)
    ensures ReadInt("-" + t) == var n := ReadNat(t); if n.None? then None else Some((-(n.value.0 as int), n.value.1))
  {
    assert ("-" + t)[1..] == t;
  }

  lemma ReadIntText(n: int, rest: string)
    requires !StartsWithDigit(rest)
    ensures ReadInt(Text(n) + rest) == Some((n, rest))
  {
    var t := Digits(if n < 0 then -n else n) + rest;
    ReadNatOf(if n < 0 then -n else n, rest);
    if n < 0 {
      assert Text(n) + rest == "-" + t;
      ReadNegative(t);
    } else {
      assert IsDigit(t[0]);
    }
  }

  // ---- zero padding ------------------------------------------------------

  function Zeros(k: nat): (s: string)
    ensures |s| == k && forall i :: 0 <= i < k ==> s[i] == '0'
  {
    if k == 0 then "" else "0" + Zeros(k - 1)
  }

  function Pad(n: nat, width: nat): (s: string)
    ensures |s| >= width && forall c :: c in s ==> IsDigit(c)
  {
    var d := Digits(n);
    if |d| >= width then d else Zeros(width - |d|) + d
  }

  lemma {:induction false} ValueOfZeros(k: nat, d: string)
    requires forall c :: c in d ==> IsDigit(c)
    ensures forall c :: c in Zeros(k) + d ==> IsDigit(c)
    ensures ValueOf(Zeros(k) + d) == ValueOf(d)
    decreases k, |d|
  {
    var s := Zeros(k) + d;
    if d != "" {
      assert s[..|s| - 1] == Zeros(k) + d[..|d| - 1];
      ValueOfZeros(k, d[..|d| - 1]);
    } else if k > 0 {
      assert s[..|s| - 1] == Zeros(k - 1) + "";
      ValueOfZeros(k - 1, "");
    }
  }

  lemma ValueOfPad(n: nat, width: nat)
    ensures ValueOf(Pad(n, width)) == n
  {
    var d := Digits(n);
    ValueOfDigits(n);
    ValueOfZeros(if |d| < width then width - |d| else 0, d);
  }
}
