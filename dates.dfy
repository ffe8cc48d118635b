/** Proleptic Gregorian dates as PHP's `DateTime` handles them: day
    arithmetic (`modify`), the weekday (`format('w')`), the `Y-m-d` format and
    `DateTime::createFromFormat('Y-m-d', …)` with its overflow of out-of-range
    months and days. */
module Dates {
  import opened Wrappers
  import opened Text

  datatype Date = Date(year: int, month: int, day: int)

  predicate IsLeap(y: int)
  {
    y % 4 == 0 && (y % 100 != 0 || y % 400 == 0)
  }

  function DaysInMonth(y: int, m: int): int
    requires 1 <= m <= 12
  {
    if m == 2 then (if IsLeap(y) then 29 else 28)
    else if m == 4 || m == 6 || m == 9 || m == 11 then 30
    else 31
  }

  /** A real calendar day. */
  predicate Valid(d: Date)
  {
    1 <= d.month <= 12 && 1 <= d.day <= DaysInMonth(d.year, d.month)
  }

  /** Days from 0000-01-01 to the first day of year `y` (negative before it). */
  function DaysBeforeYear(y: int): int
  {
    365 * y + (y + 3) / 4 - (y + 99) / 100 + (y + 399) / 400
  }

  /** Days from the first of January to the first of month `m`. */
  function DaysBeforeMonth(y: int, m: int): int
    requires 1 <= m <= 12
  {
    var leap := if IsLeap(y) then 1 else 0;
    if m == 1 then 0
    else if m == 2 then 31
    else [59, 90, 120, 151, 181, 212, 243, 273, 304, 334][m - 3] + leap
  }

  /** The day's position on the time line: 0000-01-01 is day 0. */
  function DayNumber(d: Date): int
    requires Valid(d)
  {
    DaysBeforeYear(d.year) + DaysBeforeMonth(d.year, d.month) + d.day - 1
  }

  /** PHP's `format('w')` of day number `n`: 0 for Sunday … 6 for Saturday
      (0000-01-01 was a Saturday). */
  function WeekdayOf(n: int): int
  {
    (n + 6) % 7
  }

  function Weekday(d: Date): int
    requires Valid(d)
  {
    WeekdayOf(DayNumber(d))
  }

  lemma YearLength(y: int)
    ensures DaysBeforeYear(y + 1) == DaysBeforeYear(y) + if IsLeap(y) then 366 else 365
  {
    assert (y + 4) / 4 == (y + 3) / 4 + (if y % 4 == 0 then 1 else 0);
    assert (y + 100) / 100 == (y + 99) / 100 + (if y % 100 == 0 then 1 else 0);
    assert (y + 400) / 400 == (y + 399) / 400 + (if y % 400 == 0 then 1 else 0);
  }

  /** The following calendar day (`modify('+1 day')`). */
  function NextDay(d: Date): (r: Date)
    requires Valid(d)
    ensures Valid(r) && DayNumber(r) == DayNumber(d) + 1
  {
    if d.day < DaysInMonth(d.year, d.month) then Date(d.year, d.month, d.day + 1)
    else if d.month < 12 then Date(d.year, d.month + 1, 1)
    else
      YearLength(d.year);
      Date(d.year + 1, 1, 1)
  }

  /** The preceding calendar day (`modify('-1 day')`). */
  function PrevDay(d: Date): (r: Date)
    requires Valid(d)
    ensures Valid(r) && DayNumber(r) == DayNumber(d) - 1
  {
    if d.day > 1 then Date(d.year, d.month, d.day - 1)
    else if d.month > 1 then Date(d.year, d.month - 1, DaysInMonth(d.year, d.month - 1))
    else
      YearLength(d.year - 1);
      Date(d.year - 1, 12, 31)
  }

  /** `modify('+k days')` (or `-k days` for negative `k`). */
  function AddDays(d: Date, k: int): (r: Date)
    requires Valid(d)
    ensures Valid(r) && DayNumber(r) == DayNumber(d) + k
    decreases if k < 0 then -k else k
  {
    if k == 0 then d
    else if k > 0 then AddDays(NextDay(d), k - 1)
    else AddDays(PrevDay(d), k + 1)
  }

  /** How far back `modify('last Sunday')` goes from a day of weekday `w`,
      with the source's special case of a full week from a Sunday. */
  function DaysBackToSunday(w: int): int
  {
    if w == 0 then 7 else w
  }

  /** How far ahead `modify('next Sunday')` goes, a full week from a Sunday. */
  function DaysAheadToSunday(w: int): int
  {
    if w == 0 then 7 else 7 - w
  }

  lemma {:induction false} SundayBack(t: int)
    ensures var b := DaysBackToSunday(WeekdayOf(t));
      1 <= b <= 7 && WeekdayOf(t - b) == 0 && (WeekdayOf(t) == 0 <==> b == 7)
      && forall n :: t - b < n < t ==> WeekdayOf(n) != 0
  {
  }

  lemma {:induction false} SundayAhead(t: int)
    ensures var a := DaysAheadToSunday(WeekdayOf(t));
      1 <= a <= 7 && WeekdayOf(t + a) == 0 && (WeekdayOf(t) == 0 <==> a == 7)
      && forall n :: t < n < t + a ==> WeekdayOf(n) != 0
  {
  }

  /** The most recent Sunday strictly before `today`: `modify('last Sunday')`,
      or `modify('-7 days')` when today is itself a Sunday. */
  function LastSunday(today: Date): (r: Date)
    requires Valid(today)
    ensures Valid(r) && Weekday(r) == 0
    ensures 1 <= DayNumber(today) - DayNumber(r) <= 7
    ensures Weekday(today) == 0 <==> DayNumber(today) - DayNumber(r) == 7
    ensures forall n :: DayNumber(r) < n < DayNumber(today) ==> WeekdayOf(n) != 0
  {
    SundayBack(DayNumber(today));
    AddDays(today, -DaysBackToSunday(Weekday(today)))
  }

  /** The nearest Sunday strictly after `today`: `modify('next Sunday')`, or
      `modify('+7 days')` when today is itself a Sunday. */
  function NextSunday(today: Date): (r: Date)
    requires Valid(today)
    ensures Valid(r) && Weekday(r) == 0
    ensures 1 <= DayNumber(r) - DayNumber(today) <= 7
    ensures Weekday(today) == 0 <==> DayNumber(r) - DayNumber(today) == 7
    ensures forall n :: DayNumber(today) < n < DayNumber(r) ==> WeekdayOf(n) != 0
  {
    SundayAhead(DayNumber(today));
    AddDays(today, DaysAheadToSunday(Weekday(today)))
  }

  /** PHP `format('Y')`: at least four digits, a minus sign before year zero. */
  function FormatYear(y: int): (s: string)
    ensures |s| >= 4
  {
    if y < 0 then "-" + Pad4(-y) else Pad4(y)
  }

  function Pad4(n: nat): (s: string)
    ensures |s| >= 4
  {
    if n < 10000 then Fixed(n, 4)
    else
      assert Pow10(4) == 10000;
      NatToStringWide(n, 4);
      NatToString(n)
  }

  /** PHP `format('Y-m-d')`. */
  function Format(d: Date): string
    requires Valid(d)
  {
    FormatYear(d.year) + "-" + Fixed(d.month, 2) + "-" + Fixed(d.day, 2)
  }

  /** The longest prefix of `s` made of at most `max` digits: how
      `createFromFormat` reads a numeric field. */
  function TakeDigits(s: string, max: nat): (t: string)
    ensures |t| <= max && |t| <= |s| && t == s[..|t|] && AllDigits(t)
    ensures |t| < max && |t| < |s| ==> !IsDigit(s[|t|])
  {
    if max == 0 || |s| == 0 || !IsDigit(s[0]) then ""
    else [s[0]] + TakeDigits(s[1..], max - 1)
  }

  /** `DateTime::createFromFormat('Y-m-d', s)` up to overflow handling: a year
      of up to four digits, a month and a day of up to two digits, separated
      by `-`, and nothing after. The fields are returned as read, possibly
      out of range (month 13, day 0, …). */
  function ParseYmd(s: string): (r: Option<Date>)
    ensures r.Some? ==> |s| <= 10 && r.value.year >= 0 && r.value.month >= 0 && r.value.day >= 0
  {
    var y := TakeDigits(s, 4);
    if |y| == 0 || |y| == |s| || s[|y|] != '-' then None
    else
      var rest := s[|y| + 1..];
      var m := TakeDigits(rest, 2);
      if |m| == 0 || |m| == |rest| || rest[|m|] != '-' then None
      else
        var tail := rest[|m| + 1..];
        var d := TakeDigits(tail, 2);
        if |d| == 0 || |d| != |tail| then None
        else Some(Date(Value(y), Value(m), Value(d)))
  }

  /** Rolls a day count past the end of its month into the following months;
      day 0 is the last day of the previous month. */
  function RollDays(y: int, m: int, d: nat): (r: Date)
    requires 1 <= m <= 12
    ensures Valid(r)
    ensures 1 <= d <= DaysInMonth(y, m) ==> r == Date(y, m, d)
    decreases d
  {
    if d == 0 then PrevDay(Date(y, m, 1))
    else if d <= DaysInMonth(y, m) then Date(y, m, d)
    else if m == 12 then RollDays(y + 1, 1, d - 31)
    else RollDays(y, m + 1, d - DaysInMonth(y, m))
  }

  /** PHP's normalisation of a parsed date: the month rolls into neighbouring
      years first, then the day into neighbouring months. A real date is left
      as it is. */
  function Normalise(raw: Date): (r: Date)
    requires raw.month >= 0 && raw.day >= 0
    ensures Valid(r)
    ensures Valid(raw) ==> r == raw
  {
    var y := raw.year + (raw.month - 1) / 12;
    var m := (raw.month - 1) % 12 + 1;
    RollDays(y, m, raw.day)
  }

  /** The strict form: four-digit year, two-digit month and day, and a real date. */
  predicate IsCanonical(s: string)
  {
    |s| == 10 && s[4] == '-' && s[7] == '-'
    && AllDigits(s[..4]) && AllDigits(s[5..7]) && AllDigits(s[8..])
    && Valid(Date(Value(s[..4]), Value(s[5..7]), Value(s[8..])))
  }

  /** The check of the shortcode renderer: `createFromFormat` succeeds and
      formatting its result gives back exactly `s`. */
  predicate RoundTrips(s: string)
  {
    match ParseYmd(s)
    case None => false
    case Some(raw) => Format(Normalise(raw)) == s
  }

  /** A formatted real date no longer than ten characters is canonical. */
  lemma FormatShortIsCanonical(d: Date)
    requires Valid(d) && |Format(d)| <= 10
    ensures IsCanonical(Format(d))
    ensures Format(d)[..4] == Fixed(d.year, 4)
  {
    if d.year >= 10000 {
      assert Pow10(4) == 10000;
      NatToStringWide(d.year, 4);
    }
    assert 0 <= d.year < 10000;
    var s := Format(d);
    assert Pow10(4) == 10000 && Pow10(2) == 100;
    assert s[..4] == Fixed(d.year, 4);
    assert s[5..7] == Fixed(d.month, 2);
    assert s[8..] == Fixed(d.day, 2);
    FixedValue(d.year, 4);
    FixedValue(d.month, 2);
    FixedValue(d.day, 2);
  }

  /** A canonical string parses to its own fields, which form a real date, and
      formats back to itself. */
  lemma CanonicalRoundTrips(s: string)
    requires IsCanonical(s)
    ensures RoundTrips(s)
  {
    var raw := Date(Value(s[..4]), Value(s[5..7]), Value(s[8..]));
    CanonicalParses(s);
    assert Normalise(raw) == raw;
    ValueFixed(s[..4]);
    ValueFixed(s[5..7]);
    ValueFixed(s[8..]);
    assert Pow10(4) == 10000;
    assert FormatYear(raw.year) == s[..4];
    Reassemble(s);
  }

  lemma Reassemble(s: string)
    requires |s| == 10 && s[4] == '-' && s[7] == '-'
    ensures s == s[..4] + "-" + s[5..7] + "-" + s[8..]
  {
  }

  /** A canonical string parses to its three digit groups. */
  lemma CanonicalParses(s: string)
    requires IsCanonical(s)
    ensures ParseYmd(s) == Some(Date(Value(s[..4]), Value(s[5..7]), Value(s[8..])))
  {
    var y := TakeDigits(s, 4);
    assert s[..4][3] == s[3];
    assert IsDigit(s[3]);
    assert |y| == 4;
    var rest := s[5..];
    var m := TakeDigits(rest, 2);
    assert s[5..7][0] == rest[0] && s[5..7][1] == rest[1];
    assert IsDigit(rest[0]) && IsDigit(rest[1]);
    assert |m| == 2;
    assert m == s[5..7];
    var tail := rest[3..];
    assert tail == s[8..];
    var d := TakeDigits(tail, 2);
    assert IsDigit(tail[0]) && IsDigit(tail[1]);
    assert |d| == 2;
    assert d == tail;
    assert y == s[..4] && s[|y|] == '-' && |y| != |s|;
    assert rest[|m|] == '-' && |m| != |rest|;
  }

  /** The round-trip check accepts exactly the canonical `YYYY-MM-DD` dates. */
  lemma RoundTripsIffCanonical(s: string)
    ensures RoundTrips(s) <==> IsCanonical(s)
  {
    if IsCanonical(s) {
      CanonicalRoundTrips(s);
    }
    if RoundTrips(s) {
      var raw := ParseYmd(s).value;
      FormatShortIsCanonical(Normalise(raw));
    }
  }

  lemma Pad4Value(n: nat)
    ensures AllDigits(Pad4(n)) && Value(Pad4(n)) == n
  {
    if n < 10000 {
      assert Pow10(4) == 10000;
      FixedValue(n, 4);
    } else {
      NatToStringValue(n);
    }
  }

  /** Different years format differently. */
  lemma FormatYearInjective(x: int, y: int)
    requires FormatYear(x) == FormatYear(y)
    ensures x == y
  {
    Pad4Value(if x < 0 then -x else x);
    Pad4Value(if y < 0 then -y else y);
    assert FormatYear(x)[0] == '-' <==> x < 0;
    assert FormatYear(y)[0] == '-' <==> y < 0;
    if x < 0 && y < 0 {
      assert Pad4(-x) == FormatYear(x)[1..];
    }
  }

  /** `format('Y-m-d')` splits back into its year, month and day parts. */
  lemma FormatParts(d: Date)
    requires Valid(d)
    ensures var s := Format(d);
      |s| >= 10 && s[..|s| - 6] == FormatYear(d.year)
      && s[|s| - 5..|s| - 3] == Fixed(d.month, 2) && s[|s| - 2..] == Fixed(d.day, 2)
  {
  }

  /** Different days format differently. */
  lemma FormatInjective(a: Date, b: Date)
    requires Valid(a) && Valid(b) && a != b
    ensures Format(a) != Format(b)
  {
    if Format(a) == Format(b) {
      FormatParts(a);
      FormatParts(b);
      FormatYearInjective(a.year, b.year);
      assert Pow10(2) == 100;
      FixedValue(a.month, 2);
      FixedValue(b.month, 2);
      FixedValue(a.day, 2);
      FixedValue(b.day, 2);
    }
  }
}
