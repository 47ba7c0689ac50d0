/** Dates as day numbers: day 0 is 1970-01-01, a Thursday.  Weeks start on
    Monday, as in pandas' `W-MON` anchor; the proleptic Gregorian calendar
    gives the day of the month and the month a week tick is labelled with. */
module Calendar {
  import opened Common
  import opened Keys

  /** Monday is 0, ..., Sunday is 6; day 0 is a Thursday (3). */
  function Weekday(day: int): (w: nat)
    ensures w < 7
  {
    (day + 3) % 7
  }

  predicate IsMonday(day: int) { Weekday(day) == 0 }

  /** Weeks are numbered from the one starting on Monday 1969-12-29 (day -3). */
  function WeekNumber(day: int): int
  {
    (day + 3) / 7
  }

  /** The Monday that starts week `k`. */
  function MondayOf(k: int): (m: int)
    ensures IsMonday(m)
  {
    7 * k - 3
  }

  /** The Monday on or before `day`: the left edge, and the label, of the
      left-closed week bin that holds `day`. */
  function WeekStart(day: int): (m: int)
    ensures IsMonday(m) && m <= day < m + 7
  {
    MondayOf(WeekNumber(day))
  }

  /** Only one Monday lies in the six days up to any day. */
  lemma WeekStartUnique(day: int, m: int)
    requires IsMonday(m) && m <= day < m + 7
    ensures WeekStart(day) == m
  {
    var w := WeekStart(day);
    assert (w + 3) % 7 == 0 && (m + 3) % 7 == 0;
    assert (w - m) % 7 == 0;
  }

  /** A day lies in week `k` exactly when its week starts on the Monday of `k`. */
  lemma WeekNumberOf(day: int, k: int)
    ensures WeekStart(day) == MondayOf(k) <==> WeekNumber(day) == k
    ensures MondayOf(k) <= day < MondayOf(k) + 7 <==> WeekNumber(day) == k
  {
  }

  /** Later days never fall in earlier weeks. */
  lemma WeekNumberMonotone(a: int, b: int)
    requires a <= b
    ensures WeekNumber(a) <= WeekNumber(b)
  {
  }

  predicate IsLeapYear(y: int) { y % 4 == 0 && (y % 100 != 0 || y % 400 == 0) }

  function DaysInYear(y: int): (n: nat)
    ensures n == 365 || n == 366
  {
    if IsLeapYear(y) then 366 else 365
  }

  function DaysInMonth(y: int, m: int): (n: nat)
    requires 1 <= m <= 12
    ensures 28 <= n <= 31
  {
    if m == 2 then (if IsLeapYear(y) then 29 else 28)
    else if m == 4 || m == 6 || m == 9 || m == 11 then 30
    else 31
  }

  /** Days from 1970-01-01 to January 1 of year `y` (negative before 1970). */
  function DaysBeforeYear(y: int): int
    decreases if y >= 1970 then y - 1970 else 1970 - y
  {
    if y == 1970 then 0
    else if y > 1970 then DaysBeforeYear(y - 1) + DaysInYear(y - 1)
    else DaysBeforeYear(y + 1) - DaysInYear(y)
  }

  lemma NextYear(y: int)
    ensures DaysBeforeYear(y + 1) == DaysBeforeYear(y) + DaysInYear(y)
  {
  }

  /** Days of year `y` before the first of month `m` (`m == 13` is the year's end). */
  function DaysBeforeMonth(y: int, m: int): nat
    requires 1 <= m <= 13
  {
    if m == 1 then 0 else DaysBeforeMonth(y, m - 1) + DaysInMonth(y, m - 1)
  }

  lemma MonthsFillYear(y: int)
    ensures DaysBeforeMonth(y, 13) == DaysInYear(y)
  {
    var leap := if IsLeapYear(y) then 1 else 0;
    assert DaysBeforeMonth(y, 2) == 31;
    assert DaysBeforeMonth(y, 3) == 59 + leap;
    assert DaysBeforeMonth(y, 4) == 90 + leap;
    assert DaysBeforeMonth(y, 5) == 120 + leap;
    assert DaysBeforeMonth(y, 6) == 151 + leap;
    assert DaysBeforeMonth(y, 7) == 181 + leap;
    assert DaysBeforeMonth(y, 8) == 212 + leap;
    assert DaysBeforeMonth(y, 9) == 243 + leap;
    assert DaysBeforeMonth(y, 10) == 273 + leap;
    assert DaysBeforeMonth(y, 11) == 304 + leap;
    assert DaysBeforeMonth(y, 12) == 334 + leap;
  }

  datatype CivilDate = CivilDate(year: int, month: int, day: int)

  predicate ValidCivil(c: CivilDate)
  {
    1 <= c.month <= 12 && 1 <= c.day <= DaysInMonth(c.year, c.month)
  }

  /** The day number of a calendar date. */
  function DaysFromCivil(c: CivilDate): int
    requires ValidCivil(c)
  {
    DaysBeforeYear(c.year) + DaysBeforeMonth(c.year, c.month) + c.day - 1
  }

  /** The year holding the day `offset` days after January 1 of `y`, and
      that day's position in its year. */
  function YearOf(y: int, offset: int): (r: (int, int))
    ensures 0 <= r.1 < DaysInYear(r.0)
    ensures DaysBeforeYear(r.0) + r.1 == DaysBeforeYear(y) + offset
    decreases if offset < 0 then 1 else 0, if offset < 0 then -offset else offset
  {
    if 0 <= offset < DaysInYear(y) then (y, offset)
    else if offset >= DaysInYear(y) then
      NextYear(y);
      YearOf(y + 1, offset - DaysInYear(y))
    else
      NextYear(y - 1);
      YearOf(y - 1, offset + DaysInYear(y - 1))
  }

  /** The month, from `m` on, holding day `dayOfYear` of year `y`. */
  function MonthOf(y: int, m: int, dayOfYear: int): (c: CivilDate)
    requires 1 <= m <= 12
    requires DaysBeforeMonth(y, m) <= dayOfYear < DaysInYear(y)
    ensures ValidCivil(c) && c.year == y
    ensures DaysBeforeMonth(y, c.month) + c.day - 1 == dayOfYear
    decreases 12 - m
  {
    MonthsFillYear(y);
    if dayOfYear < DaysBeforeMonth(y, m + 1) then CivilDate(y, m, dayOfYear - DaysBeforeMonth(y, m) + 1)
    else MonthOf(y, m + 1, dayOfYear)
  }

  /** The calendar date of a day number: what `item.day` and `item.month` read. */
  function CivilFromDays(day: int): (c: CivilDate)
    ensures ValidCivil(c)
    ensures DaysFromCivil(c) == day
  {
    var (y, offset) := YearOf(1970, day);
    MonthOf(y, 1, offset)
  }

  lemma {:induction false} YearsIncrease(a: int, b: int)
    requires a < b
    ensures DaysBeforeYear(a) + DaysInYear(a) <= DaysBeforeYear(b)
    decreases b - a
  {
    NextYear(a);
    if a + 1 < b {
      YearsIncrease(a + 1, b);
    }
  }

  lemma {:induction false} MonthsIncrease(y: int, a: int, b: int)
    requires 1 <= a < b <= 13
    ensures DaysBeforeMonth(y, a) + DaysInMonth(y, a) <= DaysBeforeMonth(y, b)
    decreases b - a
  {
    if a + 1 < b {
      MonthsIncrease(y, a + 1, b);
    }
  }

  /** Distinct dates have distinct day numbers, so a day number names its date. */
  lemma CivilFromDaysInverse(c: CivilDate)
    requires ValidCivil(c)
    ensures CivilFromDays(DaysFromCivil(c)) == c
  {
    var d := CivilFromDays(DaysFromCivil(c));
    MonthsFillYear(c.year);
    MonthsFillYear(d.year);
    MonthsIncrease(c.year, c.month, 13);
    MonthsIncrease(d.year, d.month, 13);
    if c.year < d.year {
      YearsIncrease(c.year, d.year);
    } else if d.year < c.year {
      YearsIncrease(d.year, c.year);
    }
    assert d.year == c.year;
    if c.month < d.month {
      MonthsIncrease(c.year, c.month, d.month);
    } else if d.month < c.month {
      MonthsIncrease(c.year, d.month, c.month);
    }
  }

  /** MESES: Spanish month abbreviations, as the week ticks spell them;
      month `m` is entry `m - 1`. */
  const Meses: seq<string> := [
    "Ene.", "Feb.", "Mar.", "Abr.", "May.", "Jun.",
    "Jul.", "Ago.", "Sep.", "Oct.", "Nov.", "Dic."
  ]

  /** `MESES[m]`, four characters for every month. */
  function MonthAbbrev(m: int): (s: string)
    requires 1 <= m <= 12
    ensures |s| == 4 && s[3] == '.'
  {
    Meses[m - 1]
  }

  /** `f"{day:02}"`: a day of the month in exactly two digits. */
  lemma TwoDigitDay(d: nat)
    requires d < 100
    ensures var dd := ZFill(NatToString(d), 2);
      |dd| == 2 && AllDigits(dd) && DigitsValue(dd) == d
  {
    NatToStringValue(d);
    ZFillDigits(NatToString(d), 2);
    TwoDigits(d);
  }

  /** `f"{item.day:02}<br>{MESES[item.month]}"` for the week starting on `monday`. */
  function WeekTickLabel(monday: int): (s: string)
    ensures var c := CivilFromDays(monday);
      |s| == 10 && AllDigits(s[..2]) && DigitsValue(s[..2]) == c.day
      && s[2..6] == "<br>" && s[6..] == MonthAbbrev(c.month)
  {
    var c := CivilFromDays(monday);
    var dd := ZFill(NatToString(c.day), 2);
    TwoDigitDay(c.day);
    var s := dd + "<br>" + MonthAbbrev(c.month);
    assert s[..2] == dd && s[2..6] == "<br>" && s[6..] == MonthAbbrev(c.month);
    s
  }
}
