/** The proleptic Gregorian calendar as pandas uses it: civil dates, month
    indices for the month-start ("MS") series, day numbers counted from
    1970-01-01 for daily and weekly resampling, weekdays and ISO 8601 week
    numbers (ISO 8601:2004 section 4.1.4). */
module Calendar {

  datatype Date = Date(year: int, month: int, day: int)

  predicate IsLeapYear(y: int)
  {
    y % 4 == 0 && (y % 100 != 0 || y % 400 == 0)
  }

  function DaysInMonth(y: int, m: int): (n: int)
    requires 1 <= m <= 12
    ensures 28 <= n <= 31
  {
    if m == 2 then (if IsLeapYear(y) then 29 else 28)
    else if m == 4 || m == 6 || m == 9 || m == 11 then 30
    else 31
  }

  /** A date `pd.to_datetime` accepts. */
  predicate ValidDate(d: Date)
  {
    1 <= d.month <= 12 && 1 <= d.day <= DaysInMonth(d.year, d.month)
  }

  // ----- Months: a month-start timestamp is a month index, year * 12 + month - 1.

  function MonthIndex(d: Date): int
  {
    d.year * 12 + d.month - 1
  }

  function YearOfMonth(mi: int): int
  {
    mi / 12
  }

  function MonthOfYear(mi: int): (m: int)
    ensures 1 <= m <= 12
  {
    mi % 12 + 1
  }

  /** `+ pd.offsets.MonthBegin(1)` on a month start is the next month index:
      the month of the year advances by one and December rolls over into
      January of the next year. */
  lemma NextMonth(mi: int)
    ensures MonthIndex(Date(YearOfMonth(mi), MonthOfYear(mi), 1)) == mi
    ensures MonthOfYear(mi) < 12 ==>
      MonthOfYear(mi + 1) == MonthOfYear(mi) + 1 && YearOfMonth(mi + 1) == YearOfMonth(mi)
    ensures MonthOfYear(mi) == 12 ==>
      MonthOfYear(mi + 1) == 1 && YearOfMonth(mi + 1) == YearOfMonth(mi) + 1
  {
  }

  // ----- Days: day numbers counted from 1970-01-01 (day 0), in both directions.

  /** Day number of a civil date (the era-based algorithm of H. Hinnant). */
  function DaysFromCivil(y: int, m: int, d: int): int
    requires 1 <= m <= 12
  {
    var y' := if m <= 2 then y - 1 else y;
    var era := y' / 400;
    var yoe := y' - era * 400;
    var mp := if m > 2 then m - 3 else m + 9;
    var doy := (153 * mp + 2) / 5 + d - 1;
    var doe := yoe * 365 + yoe / 4 - yoe / 100 + doy;
    era * 146097 + doe - 719468
  }

  function DayNumber(d: Date): int
    requires 1 <= d.month <= 12
  {
    DaysFromCivil(d.year, d.month, d.day)
  }

  /** Civil date of a day number (the inverse algorithm of H. Hinnant). */
  function CivilFromDays(z: int): Date
  {
    var z' := z + 719468;
    var era := z' / 146097;
    var doe := z' - era * 146097;
    var yoe := (doe - doe / 1460 + doe / 36524 - doe / 146096) / 365;
    var y := yoe + era * 400;
    var doy := doe - (365 * yoe + yoe / 4 - yoe / 100);
    var mp := (5 * doy + 2) / 153;
    var d := doy - (153 * mp + 2) / 5 + 1;
    var m := if mp < 10 then mp + 3 else mp - 9;
    Date(if m <= 2 then y + 1 else y, m, d)
  }

  /** Moving k days along a month moves the day number by k. */
  lemma DaysFromCivilShift(y: int, m: int, d: int, k: int)
    requires 1 <= m <= 12
    ensures DaysFromCivil(y, m, d + k) == DaysFromCivil(y, m, d) + k
  {
  }

  /** `Timestamp.weekday()`: 0 is Monday, 6 is Sunday; day 0 was a Thursday. */
  function Weekday(z: int): (w: int)
    ensures 0 <= w < 7
  {
    (z + 3) % 7
  }

  predicate IsMonday(z: int)
  {
    Weekday(z) == 0
  }

  /** ISO 8601 week number of a day: the week holding that week's Thursday,
      counted within the Thursday's calendar year. */
  function IsoWeek(z: int): int
  {
    var thursday := z - Weekday(z) + 3;
    var isoYear := CivilFromDays(thursday).year;
    (thursday - DaysFromCivil(isoYear, 1, 1)) / 7 + 1
  }

  /** Fixed points of the calendar: the epoch, a leap day, a Monday that
      opens a year, and the two ends of a 53-week ISO year. */
  lemma EpochAnchor()
    ensures DaysFromCivil(1970, 1, 1) == 0 && CivilFromDays(0) == Date(1970, 1, 1)
  {
    assert 719468 / 146097 == 4;
    assert 135080 / 1460 == 92 && 135080 / 36524 == 3 && 135080 / 146096 == 0;
    assert 134991 / 365 == 369 && 369 / 4 == 92 && 369 / 100 == 3;
    assert 1532 / 153 == 10 && 1532 / 5 == 306;
  }

  lemma LeapDayAnchor()
    ensures DaysFromCivil(2024, 2, 29) == 19782
    ensures CivilFromDays(19782) == Date(2024, 2, 29)
  {
    assert 739250 / 146097 == 5;
    assert 8765 / 1460 == 6 && 8765 / 36524 == 0 && 8765 / 146096 == 0;
    assert 8759 / 365 == 23 && 23 / 4 == 5 && 23 / 100 == 0;
    assert 1827 / 153 == 11 && 1685 / 5 == 337;
  }

  /** 2024-01-01 is a Monday in ISO week 1. */
  lemma IsoWeekAnchorNewYear()
    ensures DaysFromCivil(2024, 1, 1) == 19723 && IsMonday(19723) && IsoWeek(19723) == 1
  {
    DayOf2024Jan1();
    CivilOf19726();
    IsoWeekOfMonday(19723, 2024, 19723);
  }

  /** 2020-12-28 is a Monday in week 53 of the 53-week ISO year 2020. */
  lemma IsoWeekAnchorWeek53()
    ensures DaysFromCivil(2020, 12, 28) == 18624 && IsMonday(18624) && IsoWeek(18624) == 53
  {
    DayOf2020Dec28();
    DayOf2020Jan1();
    CivilOf18627();
    IsoWeekOfMonday(18624, 2020, 18262);
  }

  /** The Monday after it, 2021-01-04, opens ISO week 1 of 2021. */
  lemma IsoWeekAnchorAfter53()
    ensures DaysFromCivil(2021, 1, 4) == 18631 && IsMonday(18631) && IsoWeek(18631) == 1
  {
    DayOf2021Jan1();
    DaysFromCivilShift(2021, 1, 1, 3);
    CivilOf18634();
    IsoWeekOfMonday(18631, 2021, 18628);
  }

  // The single conversions the anchors rest on.

  lemma IsoWeekOfMonday(z: int, y: int, start: int)
    requires Weekday(z) == 0
    requires CivilFromDays(z + 3).year == y && DaysFromCivil(y, 1, 1) == start
    ensures IsoWeek(z) == (z + 3 - start) / 7 + 1
  {
  }

  lemma DayOf2024Jan1()
    ensures DaysFromCivil(2024, 1, 1) == 19723
  {
    assert 2023 / 400 == 5 && 23 / 4 == 5 && 23 / 100 == 0 && 1532 / 5 == 306;
  }

  lemma DayOf2020Jan1()
    ensures DaysFromCivil(2020, 1, 1) == 18262
  {
    assert 2019 / 400 == 5 && 19 / 4 == 4 && 19 / 100 == 0 && 1532 / 5 == 306;
  }

  lemma DayOf2020Dec28()
    ensures DaysFromCivil(2020, 12, 28) == 18624
  {
    assert 2020 / 400 == 5 && 20 / 4 == 5 && 20 / 100 == 0 && 1379 / 5 == 275;
  }

  lemma DayOf2021Jan1()
    ensures DaysFromCivil(2021, 1, 1) == 18628
  {
    assert 2020 / 400 == 5 && 20 / 4 == 5 && 20 / 100 == 0 && 1532 / 5 == 306;
  }

  lemma CivilOf19726()
    ensures CivilFromDays(19726) == Date(2024, 1, 4)
  {
    assert 739194 / 146097 == 5;
    assert 8709 / 1460 == 5 && 8709 / 36524 == 0 && 8709 / 146096 == 0;
    assert 8704 / 365 == 23 && 23 / 4 == 5 && 23 / 100 == 0;
    assert 1547 / 153 == 10 && 1532 / 5 == 306;
  }

  lemma CivilOf18627()
    ensures CivilFromDays(18627) == Date(2020, 12, 31)
  {
    assert 738095 / 146097 == 5;
    assert 7610 / 1460 == 5 && 7610 / 36524 == 0 && 7610 / 146096 == 0;
    assert 7605 / 365 == 20 && 20 / 4 == 5 && 20 / 100 == 0;
    assert 1527 / 153 == 9 && 1379 / 5 == 275;
  }

  lemma CivilOf18634()
    ensures CivilFromDays(18634) == Date(2021, 1, 7)
  {
    assert 738102 / 146097 == 5;
    assert 7617 / 1460 == 5 && 7617 / 36524 == 0 && 7617 / 146096 == 0;
    assert 7612 / 365 == 20 && 20 / 4 == 5 && 20 / 100 == 0;
    assert 1562 / 153 == 10 && 1532 / 5 == 306;
  }

  lemma CivilOf18631()
    ensures CivilFromDays(18631) == Date(2021, 1, 4)
  {
    assert 738099 / 146097 == 5;
    assert 7614 / 1460 == 5 && 7614 / 36524 == 0 && 7614 / 146096 == 0;
    assert 7609 / 365 == 20 && 20 / 4 == 5 && 20 / 100 == 0;
    assert 1547 / 153 == 10 && 1532 / 5 == 306;
  }

  lemma CivilOf18624()
    ensures CivilFromDays(18624) == Date(2020, 12, 28)
  {
    assert 738092 / 146097 == 5;
    assert 7607 / 1460 == 5 && 7607 / 36524 == 0 && 7607 / 146096 == 0;
    assert 7602 / 365 == 20 && 20 / 4 == 5 && 20 / 100 == 0;
    assert 1512 / 153 == 9 && 1379 / 5 == 275;
  }
}
