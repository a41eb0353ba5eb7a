/** Calendar dates as the cube builder reads them: `datetime.strptime` with
    the formats '%Y%m%d' and '%Y%m%dT%H:%M:%S', the proleptic Gregorian day
    number of `date.toordinal()`, and the middle-date timestamp built from a
    centre date plus a millisecond offset. Fields are read at fixed width. */
module Dates {
  import opened Text
  import opened Wrappers

  datatype Date = Date(year: int, month: int, day: int)

  datatype DateTime = DateTime(date: Date, hour: int, minute: int, second: int)

  predicate IsLeap(y: int) {
    y % 4 == 0 && (y % 100 != 0 || y % 400 == 0)
  }

  function DaysInMonth(y: int, m: int): (n: int)
    requires 1 <= m <= 12
    ensures 28 <= n <= 31
  {
    if m == 2 then (if IsLeap(y) then 29 else 28)
    else if m == 4 || m == 6 || m == 9 || m == 11 then 30
    else 31
  }

  /** The range `datetime` accepts: years 1..9999 and real calendar days. */
  predicate ValidDate(d: Date) {
    1 <= d.year <= 9999 && 1 <= d.month <= 12 && 1 <= d.day <= DaysInMonth(d.year, d.month)
  }

  predicate ValidDateTime(t: DateTime) {
    ValidDate(t.date) && 0 <= t.hour < 24 && 0 <= t.minute < 60 && 0 <= t.second < 60
  }

  function Midnight(d: Date): DateTime {
    DateTime(d, 0, 0, 0)
  }

  // ---------------------------------------------------------------------------
  // parsing

  /** The number written by the digits s[i..i+n]. */
  function Field(s: string, i: nat, n: nat): nat
    requires i + n <= |s| && AllDigits(s[i..i + n])
  {
    DigitsValue(s[i..i + n])
  }

  lemma DigitsValue1(c: char)
    requires IsDigit(c)
    ensures DigitsValue([c]) == DigitValue(c)
  {
    assert [c][..0] == [];
  }

  lemma DigitsValueSnoc(t: string)
    requires |t| >= 1 && AllDigits(t)
    ensures DigitsValue(t) == 10 * DigitsValue(t[..|t| - 1]) + DigitValue(t[|t| - 1])
  {
  }

  lemma Field2(s: string, i: nat)
    requires i + 2 <= |s| && AllDigits(s[i..i + 2])
    ensures Field(s, i, 2) == 10 * DigitValue(s[i]) + DigitValue(s[i + 1])
  {
    var t := s[i..i + 2];
    assert t[..1] == [s[i]];
    DigitsValue1(s[i]);
    DigitsValueSnoc(t);
  }

  lemma Field4(s: string, i: nat)
    requires i + 4 <= |s| && AllDigits(s[i..i + 4])
    ensures AllDigits(s[i..i + 2]) && AllDigits(s[i + 2..i + 4])
    ensures Field(s, i, 4) == 100 * Field(s, i, 2) + Field(s, i + 2, 2)
  {
    var t := s[i..i + 4];
    assert t[..3] == s[i..i + 3] && t[..3][..2] == s[i..i + 2] && t[..3][..2][..1] == [s[i]];
    assert s[i..i + 2] == t[..2] && s[i + 2..i + 4] == t[2..];
    DigitsValue1(s[i]);
    DigitsValueSnoc(t[..3][..2]);
    DigitsValueSnoc(t[..3]);
    DigitsValueSnoc(t);
    Field2(s, i);
    Field2(s, i + 2);
  }

  /** Two digits read back the number they were written from. */
  lemma Pad2Field(s: string, i: nat, n: nat)
    requires n < 100 && i + 2 <= |s| && s[i..i + 2] == Pad2(n)
    ensures AllDigits(s[i..i + 2]) && Field(s, i, 2) == n
  {
    assert s[i] == Pad2(n)[0] && s[i + 1] == Pad2(n)[1];
    Field2(s, i);
  }

  /** Two digits written from the number they read are the same two digits. */
  lemma FieldPad2(s: string, i: nat)
    requires i + 2 <= |s| && AllDigits(s[i..i + 2])
    ensures Field(s, i, 2) < 100 && Pad2(Field(s, i, 2)) == s[i..i + 2]
  {
    Field2(s, i);
    assert IsDigit(s[i..i + 2][0]) && IsDigit(s[i..i + 2][1]);
    var n := Field(s, i, 2);
    assert n / 10 == DigitValue(s[i]) && n % 10 == DigitValue(s[i + 1]);
    assert DigitChar(DigitValue(s[i])) == s[i];
    assert DigitChar(DigitValue(s[i + 1])) == s[i + 1];
  }

  /** The fields of an 8-digit 'YYYYMMDD' string, before any range check. */
  function YmdFields(s: string): Date
    requires |s| == 8 && AllDigits(s)
  {
    Date(Field(s, 0, 4), Field(s, 4, 2), Field(s, 6, 2))
  }

  /** `datetime.strptime(s, '%Y%m%d')`: `None` where Python raises ValueError. */
  function ParseYmd(s: string): (r: Option<Date>)
    ensures r.Some? <==> |s| == 8 && AllDigits(s) && ValidDate(YmdFields(s))
    ensures r.Some? ==> ValidDate(r.value) && r.value == YmdFields(s)
  {
    if |s| == 8 && AllDigits(s) && ValidDate(YmdFields(s)) then Some(YmdFields(s)) else None
  }

  /** Shape of 'YYYYMMDDTHH:MM:SS'. */
  predicate YmdHmsShape(s: string) {
    |s| == 17 && AllDigits(s[..8]) && s[8] == 'T' && AllDigits(s[9..11]) && s[11] == ':'
    && AllDigits(s[12..14]) && s[14] == ':' && AllDigits(s[15..17])
  }

  function YmdHmsFields(s: string): DateTime
    requires YmdHmsShape(s)
  {
    DateTime(YmdFields(s[..8]), Field(s, 9, 2), Field(s, 12, 2), Field(s, 15, 2))
  }

  /** `datetime.strptime(s, '%Y%m%dT%H:%M:%S')`: `None` where Python raises ValueError. */
  function ParseYmdHms(s: string): (r: Option<DateTime>)
    ensures r.Some? <==> YmdHmsShape(s) && ValidDateTime(YmdHmsFields(s))
    ensures r.Some? ==> ValidDateTime(r.value) && r.value == YmdHmsFields(s)
  {
    if YmdHmsShape(s) && ValidDateTime(YmdHmsFields(s)) then Some(YmdHmsFields(s)) else None
  }

  // ---------------------------------------------------------------------------
  // formatting (the fixed-width forms that granule names and attributes use)

  function Pad2(n: nat): (s: string)
    requires n < 100
    ensures |s| == 2 && AllDigits(s)
  {
    [DigitChar(n / 10), DigitChar(n % 10)]
  }

  function Pad4(n: nat): (s: string)
    requires n < 10000
    ensures |s| == 4 && AllDigits(s)
  {
    Pad2(n / 100) + Pad2(n % 100)
  }

  /** A valid date written as 'YYYYMMDD'. */
  function FormatYmd(d: Date): (s: string)
    requires ValidDate(d)
    ensures |s| == 8 && AllDigits(s)
  {
    Pad4(d.year) + Pad2(d.month) + Pad2(d.day)
  }

  /** A valid date and time written as 'YYYYMMDDTHH:MM:SS'. */
  function FormatYmdHms(t: DateTime): (s: string)
    requires ValidDateTime(t)
    ensures |s| == 17
  {
    FormatYmd(t.date) + "T" + Pad2(t.hour) + ":" + Pad2(t.minute) + ":" + Pad2(t.second)
  }

  lemma FieldsOfFormat(d: Date)
    requires ValidDate(d)
    ensures YmdFields(FormatYmd(d)) == d
  {
    var s := FormatYmd(d);
    assert s[0..2] == Pad2(d.year / 100) && s[2..4] == Pad2(d.year % 100);
    assert s[4..6] == Pad2(d.month) && s[6..8] == Pad2(d.day);
    Field4(s, 0);
    Pad2Field(s, 0, d.year / 100);
    Pad2Field(s, 2, d.year % 100);
    Pad2Field(s, 4, d.month);
    Pad2Field(s, 6, d.day);
  }

  lemma FormatOfFields(s: string)
    requires |s| == 8 && AllDigits(s) && ValidDate(YmdFields(s))
    ensures FormatYmd(YmdFields(s)) == s
  {
    assert forall i, j :: 0 <= i <= j <= 8 ==> AllDigits(s[i..j]);
    Field4(s, 0);
    FieldPad2(s, 0);
    FieldPad2(s, 2);
    FieldPad2(s, 4);
    FieldPad2(s, 6);
    var d := YmdFields(s);
    assert d.year / 100 == Field(s, 0, 2) && d.year % 100 == Field(s, 2, 2);
    assert s == s[0..2] + s[2..4] + s[4..6] + s[6..8];
  }

  /** Parsing a formatted date gives the date back. */
  lemma {:induction false} ParseFormatYmd(d: Date)
    requires ValidDate(d)
    ensures ParseYmd(FormatYmd(d)) == Some(d)
  {
    FieldsOfFormat(d);
  }

  /** A string that parses is the formatted form of what it parses to. */
  lemma {:induction false} FormatParseYmd(s: string)
    requires ParseYmd(s).Some?
    ensures FormatYmd(ParseYmd(s).value) == s
  {
    FormatOfFields(s);
  }

  lemma {:induction false} ParseFormatYmdHms(t: DateTime)
    requires ValidDateTime(t)
    ensures ParseYmdHms(FormatYmdHms(t)) == Some(t)
  {
    var s := FormatYmdHms(t);
    assert s[..8] == FormatYmd(t.date);
    assert s[9..11] == Pad2(t.hour) && s[12..14] == Pad2(t.minute) && s[15..17] == Pad2(t.second);
    FieldsOfFormat(t.date);
    Field2(s, 9);
    Field2(s, 12);
    Field2(s, 15);
  }

  // ---------------------------------------------------------------------------
  // day numbers and ordering

  /** Chronological order of dates. */
  predicate Before(a: Date, b: Date) {
    a.year < b.year
    || (a.year == b.year && (a.month < b.month || (a.month == b.month && a.day < b.day)))
  }

  function DaysInYear(y: int): int {
    if IsLeap(y) then 366 else 365
  }

  /** `_days_before_year` of Python's datetime module. */
  function DaysBeforeYear(y: int): int {
    var y1 := y - 1;
    y1 * 365 + y1 / 4 - y1 / 100 + y1 / 400
  }

  /** `_days_before_month`: days in the year before the first of month `m`. */
  function DaysBeforeMonth(y: int, m: int): int
    requires 1 <= m <= 12
  {
    var table := [0, 0, 31, 59, 90, 120, 151, 181, 212, 243, 273, 304, 334];
    table[m] + (if m > 2 && IsLeap(y) then 1 else 0)
  }

  /** `date.toordinal()`: 1 for 0001-01-01. */
  function Ordinal(d: Date): int
    requires 1 <= d.month <= 12
  {
    DaysBeforeYear(d.year) + DaysBeforeMonth(d.year, d.month) + d.day
  }

  lemma DaysBeforeNextYear(y: int)
    requires y >= 1
    ensures DaysBeforeYear(y + 1) == DaysBeforeYear(y) + DaysInYear(y)
  {
    var y1 := y - 1;
    assert y / 4 - y1 / 4 == (if y % 4 == 0 then 1 else 0);
    assert y / 100 - y1 / 100 == (if y % 100 == 0 then 1 else 0);
    assert y / 400 - y1 / 400 == (if y % 400 == 0 then 1 else 0);
  }

  lemma {:induction false} DaysBeforeYearGrows(a: int, b: int)
    requires 1 <= a < b
    ensures DaysBeforeYear(a) + DaysInYear(a) <= DaysBeforeYear(b)
    decreases b - a
  {
    DaysBeforeNextYear(a);
    if a + 1 < b {
      DaysBeforeYearGrows(a + 1, b);
    }
  }

  lemma DayOfYearBounds(d: Date)
    requires ValidDate(d)
    ensures 1 <= DaysBeforeMonth(d.year, d.month) + d.day <= DaysInYear(d.year)
  {
  }

  lemma {:induction false} DaysBeforeMonthGrows(y: int, a: int, b: int)
    requires 1 <= a < b <= 12
    ensures DaysBeforeMonth(y, a) + DaysInMonth(y, a) <= DaysBeforeMonth(y, b)
    decreases b - a
  {
    if a + 1 < b {
      DaysBeforeMonthGrows(y, a + 1, b);
    }
  }

  /** The day number increases strictly with the calendar order. */
  lemma {:induction false} OrdinalMonotone(a: Date, b: Date)
    requires ValidDate(a) && ValidDate(b) && Before(a, b)
    ensures Ordinal(a) < Ordinal(b)
  {
    if a.year < b.year {
      DayOfYearBounds(a);
      DayOfYearBounds(b);
      DaysBeforeYearGrows(a.year, b.year);
    } else if a.month < b.month {
      DaysBeforeMonthGrows(a.year, a.month, b.month);
    }
  }

  const MS_PER_DAY: int := 86_400_000

  /** `datetime.strptime(center, '%Y%m%d') + timedelta(milliseconds=dtMs)`
      as milliseconds since 0001-01-01T00:00:00. */
  function MidDate(center: Date, dtMs: int): int
    requires 1 <= center.month <= 12
  {
    (Ordinal(center) - 1) * MS_PER_DAY + dtMs
  }

  /** Middle dates follow the centre dates, and the millisecond offset
      separates pairs that share a centre date, as long as the offset stays
      under one day. */
  lemma {:induction false} MidDateOrder(a: Date, dtA: int, b: Date, dtB: int)
    requires ValidDate(a) && ValidDate(b)
    requires 0 <= dtA < MS_PER_DAY && 0 <= dtB < MS_PER_DAY
    ensures Before(a, b) ==> MidDate(a, dtA) < MidDate(b, dtB)
    ensures a == b ==> (MidDate(a, dtA) < MidDate(b, dtB) <==> dtA < dtB)
  {
    if Before(a, b) {
      OrdinalMonotone(a, b);
      assert (Ordinal(a) - 1) * MS_PER_DAY + MS_PER_DAY <= (Ordinal(b) - 1) * MS_PER_DAY;
    }
  }
}
