/** The `convert_datetime_to_RFC_822` serializers of `Item.pub_date` and of
    `Channel.pub_date`/`last_build_date` (src/rss_feed/models/item.py and
    feed.py). Both write the weekday and month abbreviations taken from
    `ctime()`, the day padded to two digits, then the year, the clock time and
    the numeric offset from `strftime`: the date-time of section 5.1 of
    RFC 822 with the four-digit year of section 5.2.14 of RFC 1123. The
    `dt.replace(tzinfo=timezone.utc)` in front of it discards its result, so
    the offset written is the datetime's own. */
module Rfc822 {
  import opened Wrappers
  import opened Text

  /** A Python `datetime`: calendar fields, and the UTC offset in seconds east
      of UTC for an aware datetime (None for a naive one). */
  datatype DateTime = DateTime(
    year: int, month: int, day: int,
    hour: int, minute: int, second: int, microsecond: int,
    offset: Option<int>)

  predicate IsLeap(y: int) {
    y % 4 == 0 && (y % 100 != 0 || y % 400 == 0)
  }

  function DaysInMonth(y: int, m: int): int
    requires 1 <= m <= 12
  {
    if m == 2 then (if IsLeap(y) then 29 else 28)
    else if m == 4 || m == 6 || m == 9 || m == 11 then 30
    else 31
  }

  /** What the `datetime` type admits: years 1 to 9999, real calendar days,
      and an offset strictly within one day. */
  predicate Valid(dt: DateTime) {
    && 1 <= dt.year <= 9999
    && 1 <= dt.month <= 12
    && 1 <= dt.day <= DaysInMonth(dt.year, dt.month)
    && 0 <= dt.hour < 24 && 0 <= dt.minute < 60 && 0 <= dt.second < 60
    && 0 <= dt.microsecond < 1000000
    && (dt.offset.Some? ==> -86400 < dt.offset.value < 86400)
  }

  /** The datetimes a `datetime` object can hold. */
  type ValidDateTime = dt: DateTime | Valid(dt) witness DateTime(1970, 1, 1, 0, 0, 0, 0, None)

  // ---------------------------------------------------------------------------
  // The proleptic Gregorian calendar, as CPython's `toordinal` counts it

  /** Days in the years before `y` (CPython's `_days_before_year`). */
  function DaysBeforeYear(y: int): int
    requires y >= 1
  {
    var p := y - 1;
    p * 365 + p / 4 - p / 100 + p / 400
  }

  /** Days in the months of year `y` before month `m`. */
  function DaysBeforeMonth(y: int, m: int): int
    requires 1 <= m <= 12
  {
    (if m == 1 then 0 else if m == 2 then 31 else if m == 3 then 59
     else if m == 4 then 90 else if m == 5 then 120 else if m == 6 then 151
     else if m == 7 then 181 else if m == 8 then 212 else if m == 9 then 243
     else if m == 10 then 273 else if m == 11 then 304 else 334)
    + (if m > 2 && IsLeap(y) then 1 else 0)
  }

  /** `date.toordinal()`: 0001-01-01 is day 1. */
  function Ordinal(y: int, m: int, d: int): int
    requires y >= 1 && 1 <= m <= 12
  {
    DaysBeforeYear(y) + DaysBeforeMonth(y, m) + d
  }

  function YearLength(y: int): int {
    if IsLeap(y) then 366 else 365
  }

  /** The days of the years before `y`, counted one year at a time. */
  function CountDaysBeforeYear(y: int): int
    requires y >= 1
  {
    if y == 1 then 0 else CountDaysBeforeYear(y - 1) + YearLength(y - 1)
  }

  lemma DaysBeforeNextYear(y: int)
    requires y >= 1
    ensures DaysBeforeYear(y + 1) == DaysBeforeYear(y) + YearLength(y)
  {
    var p := y - 1;
    var a, b, c := (if y % 4 == 0 then 1 else 0), (if y % 100 == 0 then 1 else 0), (if y % 400 == 0 then 1 else 0);
    assert y / 4 == p / 4 + a by { Div4Succ(p); }
    assert y / 100 == p / 100 + b by { Div100Succ(p); }
    assert y / 400 == p / 400 + c by { Div400Succ(p); }
    LeapDivisors(y);
    assert YearLength(y) == 365 + a - b + c;
  }

  /** A multiple of 400 is a multiple of 100, which is a multiple of 4. */
  lemma LeapDivisors(y: int)
    ensures y % 400 == 0 ==> y % 100 == 0
    ensures y % 100 == 0 ==> y % 4 == 0
  {
    if y % 400 == 0 {
      MultipleOf100(y, 4 * (y / 400));
    }
    if y % 100 == 0 {
      MultipleOf4(y, 25 * (y / 100));
    }
  }

  lemma MultipleOf100(y: int, m: int)
    requires y == 100 * m
    ensures y % 100 == 0
  {
  }

  lemma MultipleOf4(y: int, m: int)
    requires y == 4 * m
    ensures y % 4 == 0
  {
  }

  lemma Div4Succ(p: nat)
    ensures (p + 1) / 4 == p / 4 + (if (p + 1) % 4 == 0 then 1 else 0)
  {
  }

  lemma Div100Succ(p: nat)
    ensures (p + 1) / 100 == p / 100 + (if (p + 1) % 100 == 0 then 1 else 0)
  {
  }

  lemma Div400Succ(p: nat)
    ensures (p + 1) / 400 == p / 400 + (if (p + 1) % 400 == 0 then 1 else 0)
  {
  }

  /** CPython's closed form counts the days of the preceding years. */
  lemma {:induction false} DaysBeforeYearCounts(y: int)
    requires y >= 1
    ensures DaysBeforeYear(y) == CountDaysBeforeYear(y)
  {
    if y > 1 {
      DaysBeforeYearCounts(y - 1);
      DaysBeforeNextYear(y - 1);
    }
  }

  /** The calendar day after `(y, m, d)`. */
  function NextDay(y: int, m: int, d: int): (int, int, int)
    requires 1 <= m <= 12
  {
    if d < DaysInMonth(y, m) then (y, m, d + 1)
    else if m < 12 then (y, m + 1, 1)
    else (y + 1, 1, 1)
  }

  /** Consecutive calendar days have consecutive ordinals. */
  lemma OrdinalNextDay(y: int, m: int, d: int)
    requires y >= 1 && 1 <= m <= 12 && 1 <= d <= DaysInMonth(y, m)
    ensures var (y', m', d') := NextDay(y, m, d);
      y' >= 1 && 1 <= m' <= 12 && Ordinal(y', m', d') == Ordinal(y, m, d) + 1
  {
    if d == DaysInMonth(y, m) && m == 12 {
      DaysBeforeNextYear(y);
    }
  }

  /** Monday is 0, as in `date.weekday()`. */
  function WeekdayIndex(y: int, m: int, d: int): (w: int)
    requires y >= 1 && 1 <= m <= 12
    ensures 0 <= w < 7
  {
    (Ordinal(y, m, d) + 6) % 7
  }

  const DayNames: seq<string> := ["Mon", "Tue", "Wed", "Thu", "Fri", "Sat", "Sun"]
  const MonthNames: seq<string> :=
    ["Jan", "Feb", "Mar", "Apr", "May", "Jun", "Jul", "Aug", "Sep", "Oct", "Nov", "Dec"]

  /** The day after a given day is the next weekday: 0001-01-01 is a Monday
      and every day moves the weekday on by one. */
  lemma WeekdayAdvances(y: int, m: int, d: int)
    requires y >= 1 && 1 <= m <= 12 && 1 <= d <= DaysInMonth(y, m)
    ensures WeekdayIndex(1, 1, 1) == 0
    ensures NextDay(y, m, d).0 >= 1 && 1 <= NextDay(y, m, d).1 <= 12
    ensures WeekdayIndex(NextDay(y, m, d).0, NextDay(y, m, d).1, NextDay(y, m, d).2)
      == (WeekdayIndex(y, m, d) + 1) % 7
  {
    OrdinalNextDay(y, m, d);
    var n := NextDay(y, m, d);
    SuccessorMod7(Ordinal(y, m, d) + 6, Ordinal(n.0, n.1, n.2) + 6);
  }

  lemma SuccessorMod7(a: int, b: int)
    requires b == a + 1
    ensures b % 7 == (a % 7 + 1) % 7
  {
  }

  // ---------------------------------------------------------------------------
  // Formatting

  /** `str(n)` for a natural number. */
  function DecimalText(n: nat): (r: string)
    ensures r != [] && forall i :: 0 <= i < |r| ==> IsDigit(r[i])
  {
    if n < 10 then [DigitChar(n)] else DecimalText(n / 10) + [DigitChar(n % 10)]
  }

  lemma {:induction false} DecimalTextValue(n: nat)
    ensures DecimalValue(DecimalText(n)) == n
  {
    if n >= 10 {
      DecimalTextValue(n / 10);
      var r := DecimalText(n);
      assert r[..|r| - 1] == DecimalText(n / 10);
    }
  }

  lemma DecimalTextFourDigits(n: nat)
    requires 1000 <= n <= 9999
    ensures |DecimalText(n)| == 4
  {
    assert |DecimalText(n / 10)| == 3 by {
      assert |DecimalText(n / 100)| == 2 by {
        assert |DecimalText(n / 1000)| == 1;
      }
    }
  }

  /** `strftime("%z")`: empty for a naive datetime, otherwise the sign and
      the hours and minutes of the offset, with seconds only when non-zero. */
  function OffsetText(offset: Option<int>): (r: string)
    requires offset.Some? ==> -86400 < offset.value < 86400
    ensures offset.None? <==> r == []
    ensures r != [] ==> (r[0] == '+' || r[0] == '-') && (|r| == 5 || |r| == 7)
  {
    match offset
    case None => []
    case Some(o) =>
      var a := if o < 0 then -o else o;
      var sign := if o < 0 then "-" else "+";
      var hhmm := PadDigits(a / 3600, 2) + PadDigits(a % 3600 / 60, 2);
      sign + hhmm + (if a % 60 != 0 then PadDigits(a % 60, 2) else [])
  }

  /** The five space-separated fields after the weekday: day, month, year,
      time and offset. */
  function Fields(dt: DateTime): seq<string>
    requires Valid(dt)
  {
    [DayNames[WeekdayIndex(dt.year, dt.month, dt.day)] + ",",
     PadDigits(dt.day, 2),
     MonthNames[dt.month - 1],
     DecimalText(dt.year),
     PadDigits(dt.hour, 2) + ":" + PadDigits(dt.minute, 2) + ":" + PadDigits(dt.second, 2),
     OffsetText(dt.offset)]
  }

  /** `convert_datetime_to_RFC_822(dt)`. The year is printed by the C
      library's `%Y`, which does not pad years before 1000. Reading the text
      back gives the datetime without its microseconds: the format keeps
      every other field, including the datetime's own offset, and its weekday
      is the date's. */
  function Format(dt: DateTime): (r: string)
    requires Valid(dt)
    ensures Parse(r) == Some(dt.(microsecond := 0))
  {
    var f := Fields(dt);
    FieldsHaveNoSpace(dt);
    SplitJoin(f, ' ');
    FieldsReadBack(dt);
    Join(" ", f)
  }

  // ---------------------------------------------------------------------------
  // Reading a formatted date back

  function MonthNumber(name: string): Option<int> {
    if name == "Jan" then Some(1) else if name == "Feb" then Some(2)
    else if name == "Mar" then Some(3) else if name == "Apr" then Some(4)
    else if name == "May" then Some(5) else if name == "Jun" then Some(6)
    else if name == "Jul" then Some(7) else if name == "Aug" then Some(8)
    else if name == "Sep" then Some(9) else if name == "Oct" then Some(10)
    else if name == "Nov" then Some(11) else if name == "Dec" then Some(12)
    else None
  }

  predicate AllDigits(s: string) {
    forall i :: 0 <= i < |s| ==> IsDigit(s[i])
  }

  function Signed(sign: char, a: int): int {
    if sign == '-' then -a else a
  }

  /** Seconds denoted by the digit groups `HH`, `MM` and an optional `SS`. */
  function OffsetSeconds(hh: string, mm: string, ss: string): int
    requires AllDigits(hh) && AllDigits(mm) && AllDigits(ss)
  {
    DecimalValue(hh) * 3600 + DecimalValue(mm) * 60 + (if ss == [] then 0 else DecimalValue(ss))
  }

  function ParseOffset(s: string): Option<Option<int>> {
    if s == [] then Some(None)
    else if (|s| == 5 || |s| == 7) && (s[0] == '+' || s[0] == '-') && AllDigits(s[1..]) then
      Some(Some(Signed(s[0], OffsetSeconds(s[1..3], s[3..5], s[5..]))))
    else None
  }

  /** Reads a string of the formatter's shape back into its fields (with no
      microseconds, which the format drops); None if it is not of that shape
      or its weekday does not match its date. */
  function Parse(s: string): Option<DateTime> {
    var parts := Split(s, ' ');
    if |parts| != 6 then None
    else
      var wd := parts[0];
      var day := parts[1];
      var mon := parts[2];
      var year := parts[3];
      var hms := parts[4];
      if !(|wd| == 4 && wd[3] == ',' && |day| == 2 && AllDigits(day) && MonthNumber(mon).Some?
           && year != [] && AllDigits(year) && |hms| == 8 && hms[2] == ':' && hms[5] == ':'
           && AllDigits(hms[..2]) && AllDigits(hms[3..5]) && AllDigits(hms[6..]))
      then None
      else
        match ParseOffset(parts[5])
        case None => None
        case Some(offset) =>
          var dt := DateTime(DecimalValue(year), MonthNumber(mon).value, DecimalValue(day),
                             DecimalValue(hms[..2]), DecimalValue(hms[3..5]), DecimalValue(hms[6..]), 0, offset);
          if Valid(dt) && wd[..3] == DayNames[WeekdayIndex(dt.year, dt.month, dt.day)] then Some(dt) else None
  }

  /** Hours, minutes and seconds of an offset's magnitude put it back together. */
  lemma OffsetArithmetic(a: int)
    requires 0 <= a < 86400
    ensures a / 3600 < 24 && a % 3600 / 60 < 60 && a % 60 < 60
    ensures a == a / 3600 * 3600 + a % 3600 / 60 * 60 + a % 60
  {
  }

  /** Where the pieces of an offset string sit. */
  lemma OffsetSlices(sign: char, hh: string, mm: string, tail: string)
    requires |hh| == 2 && |mm| == 2 && (|tail| == 0 || |tail| == 2)
    ensures var s := [sign] + hh + mm + tail;
      && |s| == 5 + |tail| && s[0] == sign && s[1..] == hh + mm + tail
      && s[1..3] == hh && s[3..5] == mm && s[5..] == tail
  {
  }

  lemma AllDigitsAppend(a: string, b: string)
    requires AllDigits(a) && AllDigits(b)
    ensures AllDigits(a + b)
  {
    forall i | 0 <= i < |a + b| ensures IsDigit((a + b)[i]) {
      if i < |a| { assert (a + b)[i] == a[i]; } else { assert (a + b)[i] == b[i - |a|]; }
    }
  }

  /** Reading a signed offset whose pieces are known two-digit numbers. */
  lemma ParseOffsetPieces(sign: char, hh: string, mm: string, tail: string)
    requires sign == '+' || sign == '-'
    requires |hh| == 2 && |mm| == 2 && (|tail| == 0 || |tail| == 2)
    requires AllDigits(hh) && AllDigits(mm) && AllDigits(tail)
    ensures ParseOffset([sign] + hh + mm + tail) == Some(Some(Signed(sign, OffsetSeconds(hh, mm, tail))))
  {
    OffsetSlices(sign, hh, mm, tail);
    AllDigitsAppend(hh, mm);
    AllDigitsAppend(hh + mm, tail);
  }

  /** The digit groups of an offset's magnitude denote that magnitude. */
  lemma OffsetDigitsValue(a: int)
    requires 0 <= a < 86400
    ensures AllDigits(PadDigits(a / 3600, 2)) && AllDigits(PadDigits(a % 3600 / 60, 2))
    ensures AllDigits(if a % 60 != 0 then PadDigits(a % 60, 2) else [])
    ensures OffsetSeconds(PadDigits(a / 3600, 2), PadDigits(a % 3600 / 60, 2),
                          if a % 60 != 0 then PadDigits(a % 60, 2) else []) == a
  {
    OffsetArithmetic(a);
    var hh, mm, ss := a / 3600, a % 3600 / 60, a % 60;
    PadDigitsValue(hh, 2);
    PadDigitsValue(mm, 2);
    if ss != 0 {
      PadDigitsValue(ss, 2);
      assert DecimalValue(PadDigits(ss, 2)) == ss;
    }
    assert DecimalValue(PadDigits(hh, 2)) == hh;
    assert DecimalValue(PadDigits(mm, 2)) == mm;
  }

  /** The offset text is the sign, then the hours, the minutes and the
      seconds when there are any. */
  lemma OffsetTextPieces(o: int)
    requires -86400 < o < 86400
    ensures var a := if o < 0 then -o else o;
      && a / 3600 < Pow10(2) && a % 3600 / 60 < Pow10(2) && a % 60 < Pow10(2)
      && OffsetText(Some(o)) == [if o < 0 then '-' else '+'] + PadDigits(a / 3600, 2) + PadDigits(a % 3600 / 60, 2)
           + (if a % 60 != 0 then PadDigits(a % 60, 2) else [])
  {
    var a := if o < 0 then -o else o;
    OffsetArithmetic(a);
    assert Pow10(2) == 100;
  }

  lemma OffsetRoundTrip(offset: Option<int>)
    requires offset.Some? ==> -86400 < offset.value < 86400
    ensures ParseOffset(OffsetText(offset)) == Some(offset)
  {
    if offset.Some? {
      var o := offset.value;
      var a := if o < 0 then -o else o;
      var sign := if o < 0 then '-' else '+';
      OffsetTextPieces(o);
      var hh, mm := PadDigits(a / 3600, 2), PadDigits(a % 3600 / 60, 2);
      var tail := if a % 60 != 0 then PadDigits(a % 60, 2) else [];
      OffsetDigitsValue(a);
      ParseOffsetPieces(sign, hh, mm, tail);
      assert Signed(sign, a) == o;
    }
  }

  lemma FieldsHaveNoSpace(dt: DateTime)
    requires Valid(dt)
    ensures forall k :: 0 <= k < |Fields(dt)| ==> ' ' !in Fields(dt)[k]
  {
    var f := Fields(dt);
    assert ' ' !in f[0] by {
      assert forall i :: 0 <= i < 7 ==> ' ' !in DayNames[i];
    }
    assert ' ' !in f[2] by {
      assert forall i :: 0 <= i < 12 ==> ' ' !in MonthNames[i];
    }
    assert ' ' !in f[5];
  }

  lemma MonthNameNumber(m: int)
    requires 1 <= m <= 12
    ensures MonthNumber(MonthNames[m - 1]) == Some(m)
  {
  }

  /** Each of the six fields passes the check `Parse` makes of it and reads
      back as the component it was printed from. */
  lemma FieldsReadBack(dt: DateTime)
    requires Valid(dt)
    ensures var f := Fields(dt);
      && |f| == 6 && |f[0]| == 4 && f[0][3] == ',' && f[0][..3] == DayNames[WeekdayIndex(dt.year, dt.month, dt.day)]
      && |f[1]| == 2 && AllDigits(f[1]) && DecimalValue(f[1]) == dt.day
      && MonthNumber(f[2]) == Some(dt.month)
      && f[3] != [] && AllDigits(f[3]) && DecimalValue(f[3]) == dt.year
      && |f[4]| == 8 && f[4][2] == ':' && f[4][5] == ':'
      && AllDigits(f[4][..2]) && AllDigits(f[4][3..5]) && AllDigits(f[4][6..])
      && DecimalValue(f[4][..2]) == dt.hour && DecimalValue(f[4][3..5]) == dt.minute
      && DecimalValue(f[4][6..]) == dt.second
      && ParseOffset(f[5]) == Some(dt.offset)
  {
    PadDigitsValue(dt.day, 2);
    PadDigitsValue(dt.hour, 2);
    PadDigitsValue(dt.minute, 2);
    PadDigitsValue(dt.second, 2);
    DecimalTextValue(dt.year);
    MonthNameNumber(dt.month);
    OffsetRoundTrip(dt.offset);
    ClockText(PadDigits(dt.hour, 2), PadDigits(dt.minute, 2), PadDigits(dt.second, 2));
  }

  /** Where the hours, minutes and seconds sit in `HH:MM:SS`. */
  lemma ClockText(a: string, b: string, c: string)
    requires |a| == 2 && |b| == 2 && |c| == 2
    ensures var hms := a + ":" + b + ":" + c;
      && |hms| == 8 && hms[2] == ':' && hms[5] == ':'
      && hms[..2] == a && hms[3..5] == b && hms[6..] == c
  {
    var hms := a + ":" + b + ":" + c;
    assert hms[..2] == a by { assert forall i :: 0 <= i < 2 ==> hms[i] == a[i]; }
    assert hms[3..5] == b by { assert forall i :: 0 <= i < 2 ==> hms[3 + i] == b[i]; }
    assert hms[6..] == c by { assert forall i :: 0 <= i < 2 ==> hms[6 + i] == c[i]; }
  }

  lemma HeadSlices(a: string, b: string, c: string, rest: string)
    requires |a| == 4 && |b| == 2 && |c| == 3
    ensures var r := a + " " + b + " " + c + " " + rest;
      && r[..4] == a && r[4] == ' ' && r[5..7] == b && r[7] == ' '
      && r[8..11] == c && r[11] == ' ' && r[12..] == rest
  {
  }

  /** Where the first three of six space-joined pieces sit. */
  lemma JoinHead(f: seq<string>)
    requires |f| == 6 && |f[0]| == 4 && |f[1]| == 2 && |f[2]| == 3
    ensures var r := Join(" ", f);
      && |r| >= 12 + |f[3]| + 2 && r[..4] == f[0] && r[4] == ' ' && r[5..7] == f[1] && r[7] == ' '
      && r[8..11] == f[2] && r[11] == ' ' && r[12..] == f[3] + " " + f[4] + " " + f[5]
  {
    JoinSix(" ", f[0], f[1], f[2], f[3], f[4], f[5]);
    assert f == [f[0], f[1], f[2], f[3], f[4], f[5]];
    HeadSlices(f[0], f[1], f[2], f[3] + " " + f[4] + " " + f[5]);
  }

  lemma TailSlices(d: string, e: string, f: string)
    requires |d| == 4 && |e| == 8
    ensures var r := d + " " + e + " " + f;
      r[..4] == d && r[4..14] == " " + e + " " && r[14..] == f
  {
  }

  /** The head of the output: a three-letter English weekday, a comma, the
      day of month zero-padded to two digits and a three-letter English
      month, separated by single spaces. */
  lemma FormatHead(dt: DateTime)
    requires Valid(dt)
    ensures |Format(dt)| >= 23
    ensures Format(dt)[..3] == DayNames[WeekdayIndex(dt.year, dt.month, dt.day)]
    ensures Format(dt)[3..5] == ", "
    ensures Format(dt)[5..7] == PadDigits(dt.day, 2)
    ensures Format(dt)[7] == ' ' && Format(dt)[8..11] == MonthNames[dt.month - 1] && Format(dt)[11] == ' '
  {
    var f := Fields(dt);
    var w := DayNames[WeekdayIndex(dt.year, dt.month, dt.day)];
    assert |w| == 3 by { assert forall i :: 0 <= i < 7 ==> |DayNames[i]| == 3; }
    assert |f[2]| == 3 by { assert forall i :: 0 <= i < 12 ==> |MonthNames[i]| == 3; }
    assert |f[4]| == 8;
    JoinHead(f);
    var r := Format(dt);
    assert r[..3] == f[0][..3] == w;
    assert r[3] == f[0][3] == ',';
  }

  /** The rest of the output: the year (four digits from year 1000 on), the
      time as `HH:MM:SS` and the offset, which is empty for a naive datetime
      so that the string then ends with a space. */
  lemma FormatTail(dt: DateTime)
    requires Valid(dt)
    ensures |Format(dt)| >= 23
    ensures 1000 <= dt.year ==>
      && |Format(dt)| >= 26
      && Format(dt)[12..16] == DecimalText(dt.year)
      && Format(dt)[16..26] == " " + Fields(dt)[4] + " "
      && Format(dt)[26..] == OffsetText(dt.offset)
    ensures dt.offset.None? ==> Format(dt)[|Format(dt)| - 1] == ' '
  {
    var f := Fields(dt);
    assert |f[0]| == 4 by { assert forall i :: 0 <= i < 7 ==> |DayNames[i]| == 3; }
    assert |f[2]| == 3 by { assert forall i :: 0 <= i < 12 ==> |MonthNames[i]| == 3; }
    assert |f[4]| == 8;
    JoinHead(f);
    var r := Format(dt);
    var rest := f[3] + " " + f[4] + " " + f[5];
    if 1000 <= dt.year {
      DecimalTextFourDigits(dt.year);
      TailSlices(f[3], f[4], f[5]);
      assert r[12..16] == rest[..4];
      assert r[16..26] == rest[4..14];
      assert r[26..] == rest[14..];
    }
    if dt.offset.None? {
      assert r[|r| - 1] == rest[|rest| - 1];
    }
  }



}
