/**
 The stores order by text. Timestamps and audit keys are written so that text order is the order
 of time and of sequence numbers; this module says how far that holds.
 */
module KeyOrder {
  import Decimal
  import Lex

  // ---- padded numbers ----------------------------------------------------

  function Pow10(w: nat): nat
  {
    if w == 0 then 1 else 10 * Pow10(w - 1)
  }

  lemma {:induction false} DigitsWidth(n: nat, w: nat)
    requires w > 0
    ensures |Decimal.Digits(n)| <= w <==> n < Pow10(w)
    decreases w
  {
    if n >= 10 {
      if w > 1 {
        DigitsWidth(n / 10, w - 1);
      }
    } else {
      PowPositive(w - 1);
    }
  }

  lemma {:induction false} PowPositive(w: nat)
    ensures Pow10(w) >= 1
  {
    if w > 0 {
      PowPositive(w - 1);
    }
  }

  predicate AllDigits(s: string)
  {
    forall c :: c in s ==> Decimal.IsDigit(c)
  }

  lemma LastCompared(a: string, x: char, b: string, y: char)
    requires |a| == |b|
    ensures Lex.Less(a + [x], b + [y]) <==> Lex.Less(a, b) || (a == b && x < y)
  {
    hide Lex.Less;
    Lex.FixedWidth(a, [x], b, [y]);
    OneCharacter(x, y);
  }

  lemma OneCharacter(x: char, y: char)
    ensures Lex.Less([x], [y]) <==> x < y
  {
  }

  // Digit strings of one width compare as text exactly as their values do.
  lemma {:induction false} DigitOrder(a: string, b: string)
    requires |a| == |b| && AllDigits(a) && AllDigits(b)
    ensures Lex.Less(a, b) <==> Decimal.ValueOf(a) < Decimal.ValueOf(b)
    ensures a == b <==> Decimal.ValueOf(a) == Decimal.ValueOf(b)
    decreases |a|
  {
    hide Lex.Less;
    if a != "" {
      var n := |a| - 1;
      assert a[n] in a && b[n] in b;
      LastCompared(a[..n], a[n], b[..n], b[n]);
      DigitOrder(a[..n], b[..n]);
      assert a == a[..n] + [a[n]] && b == b[..n] + [b[n]];
      DigitValues(a);
      DigitValues(b);
    } else {
      Lex.Irreflexive(a);
    }
  }

  lemma DigitValues(a: string)
    requires a != "" && AllDigits(a)
    ensures var n := |a| - 1; Decimal.ValueOf(a) == 10 * Decimal.ValueOf(a[..n]) + (a[n] as int - '0' as int)
    ensures 0 <= a[|a| - 1] as int - '0' as int <= 9
  {
    assert a[|a| - 1] in a;
  }

  lemma PadOrder(a: nat, b: nat, w: nat)
    requires w > 0 && a < Pow10(w) && b < Pow10(w)
    ensures |Decimal.Pad(a, w)| == |Decimal.Pad(b, w)| == w
    ensures Lex.Less(Decimal.Pad(a, w), Decimal.Pad(b, w)) <==> a < b
    ensures Decimal.Pad(a, w) == Decimal.Pad(b, w) <==> a == b
  {
    DigitsWidth(a, w);
    DigitsWidth(b, w);
    Decimal.ValueOfPad(a, w);
    Decimal.ValueOfPad(b, w);
    DigitOrder(Decimal.Pad(a, w), Decimal.Pad(b, w));
  }

  // ---- audit sort keys ---------------------------------------------------

  function AuditKey(ts: string, seqNo: nat): string
  {
    "AUDIT#" + (ts + ("#" + Decimal.Pad(seqNo, 6)))
  }

  // A key names its number, whatever the timestamp looks like: what follows the last `#` are digits.
  lemma AuditKeyNumber(ts1: string, seq1: nat, ts2: string, seq2: nat)
    requires AuditKey(ts1, seq1) == AuditKey(ts2, seq2)
    ensures seq1 == seq2
  {
    hide AuditKey, Decimal.Pad, Decimal.ValueOf;
    KeyParts(ts1, seq1);
    KeyParts(ts2, seq2);
    LastField("AUDIT#" + ts1, Decimal.Pad(seq1, 6), "AUDIT#" + ts2, Decimal.Pad(seq2, 6));
  }

  lemma KeyParts(ts: string, seqNo: nat)
    ensures AuditKey(ts, seqNo) == ("AUDIT#" + ts) + ("#" + Decimal.Pad(seqNo, 6))
    ensures AllDigits(Decimal.Pad(seqNo, 6)) && Decimal.ValueOf(Decimal.Pad(seqNo, 6)) == seqNo
  {
    Decimal.ValueOfPad(seqNo, 6);
  }

  lemma LastField(a: string, n1: string, b: string, n2: string)
    requires a + ("#" + n1) == b + ("#" + n2) && AllDigits(n1) && AllDigits(n2)
    ensures n1 == n2
  {
    var s := a + ("#" + n1);
    assert s[|a| + 1..] == n1 && (b + ("#" + n2))[|b| + 1..] == n2;
    assert s[|a|] == '#' && (b + ("#" + n2))[|b|] == '#';
    NoHashAfter(s, |a|, n1);
    NoHashAfter(s, |b|, n2);
    assert |a| == |b|;
  }

  lemma NoHashAfter(s: string, p: nat, n: string)
    requires p < |s| && s[p + 1..] == n && AllDigits(n)
    ensures forall k :: p < k < |s| ==> s[k] != '#'
  {
    forall k | p < k < |s| ensures s[k] != '#' {
      assert s[k] == n[k - p - 1] && n[k - p - 1] in n;
    }
  }

  // Keys with timestamps of one width sort by timestamp, then by sequence number, while the
  // numbers have at most six digits.
  lemma AuditKeyOrder(ts1: string, seq1: nat, ts2: string, seq2: nat)
    requires |ts1| == |ts2| && seq1 < 1000000 && seq2 < 1000000
    ensures Lex.Less(AuditKey(ts1, seq1), AuditKey(ts2, seq2)) <==> Lex.Less(ts1, ts2) || (ts1 == ts2 && seq1 < seq2)
  {
    hide Lex.Less;
    assert Pow10(6) == 1000000;
    var n1, n2 := Decimal.Pad(seq1, 6), Decimal.Pad(seq2, 6);
    PadOrder(seq1, seq2, 6);
    Lex.FixedWidth("AUDIT#", ts1 + ("#" + n1), "AUDIT#", ts2 + ("#" + n2));
    Lex.Irreflexive("AUDIT#");
    Lex.FixedWidth(ts1, "#" + n1, ts2, "#" + n2);
    Lex.FixedWidth("#", n1, "#", n2);
    Lex.Irreflexive("#");
  }

  // The first number with seven digits already sorts before its predecessor.
  lemma SeventhDigitBreaks(ts: string)
    ensures Lex.Less(AuditKey(ts, 1000000), AuditKey(ts, 999999))
  {
    hide Lex.Less;
    assert Pow10(6) == 1000000 && Pow10(7) == 10000000 && Pow10(5) == 100000;
    var big, small := Decimal.Pad(1000000, 6), Decimal.Pad(999999, 6);
    Lex.FixedWidth("AUDIT#", ts + ("#" + big), "AUDIT#", ts + ("#" + small));
    Lex.FixedWidth(ts, "#" + big, ts, "#" + small);
    Lex.FixedWidth("#", big, "#", small);
    FirstDigits();
  }

  lemma FirstDigits()
    ensures Lex.Less(Decimal.Pad(1000000, 6), Decimal.Pad(999999, 6))
  {
    var big, small := [1000000, 100000, 10000, 1000, 100, 10, 1], [999999, 99999, 9999, 999, 99, 9];
    LeadingDigit(big);
    LeadingDigit(small);
    DigitsWidth(1000000, 6);
    DigitsWidth(999999, 5);
    assert Pow10(5) == 100000 && Pow10(6) == 1000000;
    FirstCharacter(Decimal.Pad(1000000, 6), Decimal.Pad(999999, 6));
  }

  lemma FirstCharacter(a: string, b: string)
    requires a != "" && b != "" && a[0] < b[0]
    ensures Lex.Less(a, b)
  {
  }

  // Dropping last digits down to one leaves the first digit.
  lemma {:induction false} LeadingDigit(ns: seq<nat>)
    requires ns != [] && ns[|ns| - 1] < 10 && forall i :: 0 <= i < |ns| - 1 ==> ns[i] >= 10 && ns[i + 1] == ns[i] / 10
    ensures Decimal.Digits(ns[0])[0] == Decimal.DigitChar(ns[|ns| - 1])
  {
    if |ns| > 1 {
      LeadingDigit(ns[1..]);
    }
  }

  // Text order is the order of the numbers below a bound exactly when the bound has six zeros or fewer.
  lemma SixDigitsSuffice(bound: nat)
    ensures (forall a, b :: 0 <= a < bound && 0 <= b < bound ==>
               (Lex.Less(Decimal.Pad(a, 6), Decimal.Pad(b, 6)) <==> a < b))
       <==> bound <= 1000000
  {
    assert Pow10(6) == 1000000;
    if bound <= 1000000 {
      forall a, b | 0 <= a < bound && 0 <= b < bound
        ensures Lex.Less(Decimal.Pad(a, 6), Decimal.Pad(b, 6)) <==> a < b
      {
        PadOrder(a, b, 6);
      }
    } else {
      FirstDigits();
    }
  }

  // ---- timestamps --------------------------------------------------------

  datatype Instant = Instant(year: nat, month: nat, day: nat, hour: nat, minute: nat, second: nat, micro: nat)

  predicate IsLeap(y: nat)
  {
    y % 4 == 0 && (y % 100 != 0 || y % 400 == 0)
  }

  function DaysIn(y: nat, m: nat): nat
  {
    if m == 2 then (if IsLeap(y) then 29 else 28)
    else if m == 4 || m == 6 || m == 9 || m == 11 then 30
    else 31
  }

  // A UTC time with a year of four digits.
  predicate IsInstant(t: Instant)
  {
    && 1000 <= t.year <= 9999 && 1 <= t.month <= 12 && 1 <= t.day <= DaysIn(t.year, t.month)
    && t.hour < 24 && t.minute < 60 && t.second < 60 && t.micro < 1000000
  }

  // `%Y-%m-%dT%H:%M:%S.%fZ`.
  function Iso(t: Instant): string
  {
    Decimal.Pad(t.year, 4) + ("-" + (Decimal.Pad(t.month, 2) + ("-" + (Decimal.Pad(t.day, 2) + ("T" + IsoTime(t))))))
  }

  function IsoTime(t: Instant): string
  {
    Decimal.Pad(t.hour, 2) + (":" + (Decimal.Pad(t.minute, 2) + (":" + (Decimal.Pad(t.second, 2) + ("." + (Decimal.Pad(t.micro, 6) + "Z"))))))
  }

  predicate DateBefore(a: Instant, b: Instant)
  {
    a.year < b.year || (a.year == b.year && (a.month < b.month || (a.month == b.month && a.day < b.day)))
  }

  predicate SameDate(a: Instant, b: Instant)
  {
    a.year == b.year && a.month == b.month && a.day == b.day
  }

  predicate TimeBefore(a: Instant, b: Instant)
  {
    || a.hour < b.hour
    || (a.hour == b.hour && (a.minute < b.minute || (a.minute == b.minute
        && (a.second < b.second || (a.second == b.second && a.micro < b.micro)))))
  }

  // A padded number followed by a separator decides, unless it is equal.
  lemma NumberFirst(a: nat, b: nat, w: nat, sep: string, s: string, t: string)
    requires w > 0 && a < Pow10(w) && b < Pow10(w)
    ensures Lex.Less(Decimal.Pad(a, w) + (sep + s), Decimal.Pad(b, w) + (sep + t)) <==> a < b || (a == b && Lex.Less(s, t))
  {
    hide Lex.Less;
    PadOrder(a, b, w);
    Lex.FixedWidth(Decimal.Pad(a, w), sep + s, Decimal.Pad(b, w), sep + t);
    Lex.FixedWidth(sep, s, sep, t);
    Lex.Irreflexive(sep);
  }

  lemma IsoTimeOrder(a: Instant, b: Instant)
    requires IsInstant(a) && IsInstant(b)
    ensures Lex.Less(IsoTime(a), IsoTime(b)) <==> TimeBefore(a, b)
  {
    hide Lex.Less, Decimal.Pad;
    assert Pow10(2) == 100 && Pow10(6) == 1000000;
    var ma, mb := Decimal.Pad(a.micro, 6) + "Z", Decimal.Pad(b.micro, 6) + "Z";
    PadOrder(a.micro, b.micro, 6);
    Lex.FixedWidth(Decimal.Pad(a.micro, 6), "Z", Decimal.Pad(b.micro, 6), "Z");
    Lex.Irreflexive("Z");
    var sa, sb := Decimal.Pad(a.second, 2) + ("." + ma), Decimal.Pad(b.second, 2) + ("." + mb);
    NumberFirst(a.second, b.second, 2, ".", ma, mb);
    var na, nb := Decimal.Pad(a.minute, 2) + (":" + sa), Decimal.Pad(b.minute, 2) + (":" + sb);
    NumberFirst(a.minute, b.minute, 2, ":", sa, sb);
    NumberFirst(a.hour, b.hour, 2, ":", na, nb);
  }

  lemma IsoOrder(a: Instant, b: Instant)
    requires IsInstant(a) && IsInstant(b)
    ensures Lex.Less(Iso(a), Iso(b)) <==> DateBefore(a, b) || (SameDate(a, b) && TimeBefore(a, b))
  {
    hide Lex.Less, Decimal.Pad, IsoTime, TimeBefore;
    assert Pow10(2) == 100 && Pow10(4) == 10000;
    IsoTimeOrder(a, b);
    var da, db := Decimal.Pad(a.day, 2) + ("T" + IsoTime(a)), Decimal.Pad(b.day, 2) + ("T" + IsoTime(b));
    NumberFirst(a.day, b.day, 2, "T", IsoTime(a), IsoTime(b));
    var ma, mb := Decimal.Pad(a.month, 2) + ("-" + da), Decimal.Pad(b.month, 2) + ("-" + db);
    NumberFirst(a.month, b.month, 2, "-", da, db);
    NumberFirst(a.year, b.year, 4, "-", ma, mb);
  }

  // A numeral of a fixed width.
  predicate IsField(s: string, n: nat, w: nat)
  {
    |s| == w && AllDigits(s) && Decimal.ValueOf(s) == n
  }

  lemma PadIsField(n: nat, w: nat)
    requires w > 0 && n < Pow10(w)
    ensures IsField(Decimal.Pad(n, w), n, w)
  {
    DigitsWidth(n, w);
    Decimal.ValueOfPad(n, w);
  }

  // `2026-01-31T23:59:59.000001Z`: seven numerals and the marks between them.
  lemma IsoIs(t: Instant) returns (y: string, mo: string, d: string, h: string, mi: string, s: string, us: string)
    requires IsInstant(t)
    ensures IsField(y, t.year, 4) && IsField(mo, t.month, 2) && IsField(d, t.day, 2)
    ensures IsField(h, t.hour, 2) && IsField(mi, t.minute, 2) && IsField(s, t.second, 2) && IsField(us, t.micro, 6)
    ensures Iso(t) == y + ("-" + (mo + ("-" + (d + ("T" + (h + (":" + (mi + (":" + (s + ("." + (us + "Z"))))))))))))
  {
    hide Decimal.Pad, IsField;
    assert Pow10(2) == 100 && Pow10(4) == 10000;
    assert Pow10(6) == 1000000 by { assert Pow10(6) == 100 * Pow10(4); }
    PadIsField(t.year, 4);
    PadIsField(t.month, 2);
    PadIsField(t.day, 2);
    PadIsField(t.hour, 2);
    PadIsField(t.minute, 2);
    PadIsField(t.second, 2);
    PadIsField(t.micro, 6);
    y, mo, d := Decimal.Pad(t.year, 4), Decimal.Pad(t.month, 2), Decimal.Pad(t.day, 2);
    h, mi, s, us := Decimal.Pad(t.hour, 2), Decimal.Pad(t.minute, 2), Decimal.Pad(t.second, 2), Decimal.Pad(t.micro, 6);
  }

  // ---- microseconds since year one ---------------------------------------

  function DaysBeforeYear(y: nat): int
    requires y > 0
  {
    365 * (y - 1) + (y - 1) / 4 - (y - 1) / 100 + (y - 1) / 400
  }

  function DaysBeforeMonth(y: nat, m: nat): nat
  {
    if m <= 1 then 0 else DaysBeforeMonth(y, m - 1) + DaysIn(y, m - 1)
  }

  function DayNumber(t: Instant): int
    requires t.year > 0
  {
    DaysBeforeYear(t.year) + DaysBeforeMonth(t.year, t.month) + t.day
  }

  function Micros(t: Instant): int
    requires t.year > 0
  {
    1000000 * (60 * (60 * (24 * DayNumber(t) + t.hour) + t.minute) + t.second) + t.micro
  }

  lemma NextYear(y: nat)
    requires y > 0
    ensures DaysBeforeYear(y + 1) == DaysBeforeYear(y) + if IsLeap(y) then 366 else 365
  {
    Quarters(y);
    Centuries(y);
    FourCenturies(y);
    Multiples(y);
  }

  lemma Quarters(y: nat)
    requires y > 0
    ensures y / 4 == (y - 1) / 4 + if y % 4 == 0 then 1 else 0
  {
  }

  lemma Centuries(y: nat)
    requires y > 0
    ensures y / 100 == (y - 1) / 100 + if y % 100 == 0 then 1 else 0
  {
  }

  lemma FourCenturies(y: nat)
    requires y > 0
    ensures y / 400 == (y - 1) / 400 + if y % 400 == 0 then 1 else 0
  {
  }

  lemma Multiples(y: nat)
    ensures y % 400 == 0 ==> y % 100 == 0
    ensures y % 100 == 0 ==> y % 4 == 0
  {
    assert y == 400 * (y / 400) + y % 400 && y == 100 * (y / 100) + y % 100;
    assert y % 400 == 0 ==> y == 100 * (4 * (y / 400));
    assert y % 100 == 0 ==> y == 4 * (25 * (y / 100));
  }

  lemma {:induction false} YearsAscend(y1: nat, y2: nat)
    requires 0 < y1 < y2
    ensures DaysBeforeYear(y1) + (if IsLeap(y1) then 366 else 365) <= DaysBeforeYear(y2)
    decreases y2 - y1
  {
    hide IsLeap, DaysBeforeYear;
    NextYear(y1);
    if y1 + 1 < y2 {
      YearsAscend(y1 + 1, y2);
    }
  }

  lemma {:induction false} MonthsAscend(y: nat, m1: nat, m2: nat)
    requires 1 <= m1 < m2
    ensures DaysBeforeMonth(y, m1) + DaysIn(y, m1) <= DaysBeforeMonth(y, m2)
  {
    if m1 + 1 < m2 {
      MonthsAscend(y, m1, m2 - 1);
    }
  }

  lemma MonthsInYear(y: nat)
    ensures DaysBeforeMonth(y, 12) + 31 == if IsLeap(y) then 366 else 365
  {
    var feb := DaysIn(y, 2);
    assert DaysBeforeMonth(y, 2) == 31 && DaysBeforeMonth(y, 3) == 31 + feb && DaysBeforeMonth(y, 4) == 62 + feb;
    assert DaysBeforeMonth(y, 5) == 92 + feb && DaysBeforeMonth(y, 6) == 123 + feb && DaysBeforeMonth(y, 7) == 153 + feb;
    assert DaysBeforeMonth(y, 8) == 184 + feb && DaysBeforeMonth(y, 9) == 215 + feb && DaysBeforeMonth(y, 10) == 245 + feb;
    assert DaysBeforeMonth(y, 11) == 276 + feb;
  }

  lemma DayWithinYear(t: Instant)
    requires IsInstant(t)
    ensures 1 <= DaysBeforeMonth(t.year, t.month) + t.day <= if IsLeap(t.year) then 366 else 365
  {
    MonthsInYear(t.year);
    if t.month < 12 {
      MonthsAscend(t.year, t.month, 12);
    }
  }

  lemma DatesAscend(a: Instant, b: Instant)
    requires IsInstant(a) && IsInstant(b) && DateBefore(a, b)
    ensures DayNumber(a) < DayNumber(b)
  {
    hide IsLeap, DaysBeforeYear, DaysBeforeMonth, DaysIn;
    DayWithinYear(a);
    DayWithinYear(b);
    if a.year < b.year {
      YearsAscend(a.year, b.year);
    } else if a.month < b.month {
      MonthsAscend(a.year, a.month, b.month);
    }
  }

  // Text order of timestamps is the order of time.
  lemma IsoOrderIsTime(a: Instant, b: Instant)
    requires IsInstant(a) && IsInstant(b)
    ensures Lex.Less(Iso(a), Iso(b)) <==> Micros(a) < Micros(b)
  {
    hide Lex.Less, Iso, DayNumber;
    IsoOrder(a, b);
    if DateBefore(a, b) {
      DatesAscend(a, b);
    } else if DateBefore(b, a) {
      DatesAscend(b, a);
    } else {
      assert DayNumber(a) == DayNumber(b) by { SameDay(a, b); }
    }
  }

  lemma SameDay(a: Instant, b: Instant)
    requires IsInstant(a) && IsInstant(b) && SameDate(a, b)
    ensures DayNumber(a) == DayNumber(b)
  {
  }

  // One microsecond later, as a clock and a calendar count on.
  function Tick(t: Instant): Instant
  {
    if t.micro < 999999 then t.(micro := t.micro + 1)
    else if t.second < 59 then t.(second := t.second + 1, micro := 0)
    else if t.minute < 59 then t.(minute := t.minute + 1, second := 0, micro := 0)
    else if t.hour < 23 then t.(hour := t.hour + 1, minute := 0, second := 0, micro := 0)
    else if t.day < DaysIn(t.year, t.month) then Instant(t.year, t.month, t.day + 1, 0, 0, 0, 0)
    else if t.month < 12 then Instant(t.year, t.month + 1, 1, 0, 0, 0, 0)
    else Instant(t.year + 1, 1, 1, 0, 0, 0, 0)
  }

  // The count goes up by one with every microsecond, over the end of days, months and years.
  lemma TickIsOne(t: Instant)
    requires IsInstant(t)
    ensures Micros(Tick(t)) == Micros(t) + 1
  {
    hide DaysBeforeYear, IsLeap;
    if t.hour == 23 && t.minute == 59 && t.second == 59 && t.micro == 999999 {
      NextDay(t);
    } else {
      assert DayNumber(Tick(t)) == DayNumber(t);
    }
  }

  lemma NextDay(t: Instant)
    requires IsInstant(t) && t.hour == 23 && t.minute == 59 && t.second == 59 && t.micro == 999999
    ensures DayNumber(Tick(t)) == DayNumber(t) + 1 && Tick(t).hour == Tick(t).minute == Tick(t).second == Tick(t).micro == 0
  {
    hide DaysBeforeYear, IsLeap;
    MonthsInYear(t.year);
    NextYear(t.year);
    if t.day < DaysIn(t.year, t.month) {
    } else if t.month < 12 {
      assert DaysBeforeMonth(t.year, t.month + 1) == DaysBeforeMonth(t.year, t.month) + DaysIn(t.year, t.month);
    } else {
      assert DaysBeforeMonth(t.year + 1, 1) == 0;
    }
  }

  // `iso_before`: the time a number of microseconds before the reference.
  predicate IsBefore(reference: Instant, age: int, cutoff: Instant)
    requires reference.year > 0 && cutoff.year > 0
  {
    Micros(cutoff) == Micros(reference) - age
  }

  // The stale test of both stores, made on text, holds exactly of jobs older than the age.
  lemma StaleTest(updatedAt: Instant, reference: Instant, age: int, cutoff: Instant)
    requires IsInstant(updatedAt) && IsInstant(reference) && IsInstant(cutoff) && IsBefore(reference, age, cutoff)
    ensures Lex.Less(Iso(updatedAt), Iso(cutoff)) <==> Micros(reference) - Micros(updatedAt) > age
  {
    hide Lex.Less, Iso, Micros;
    IsoOrderIsTime(updatedAt, cutoff);
  }
}
