/** The setup module's civil-from-days conversion, with the source's truncating division, against the
    Gregorian calendar. */
module Calendar {

  datatype Date = Date(year: int, month: int, day: int)

  // ----- the calendar (Appendix C of RFC 3339) -----

  predicate IsLeap(y: int) {
    y % 4 == 0 && (y % 100 != 0 || y % 400 == 0)
  }

  function DaysInMonth(y: int, m: int): int
    requires 1 <= m <= 12
  {
    if m == 2 then (if IsLeap(y) then 29 else 28)
    else if m == 4 || m == 6 || m == 9 || m == 11 then 30
    else 31
  }

  predicate Valid(d: Date) {
    1 <= d.month <= 12 && 1 <= d.day <= DaysInMonth(d.year, d.month)
  }

  /** The calendar successor of a date. */
  function Tomorrow(d: Date): Date
    requires Valid(d)
  {
    if d.day < DaysInMonth(d.year, d.month) then Date(d.year, d.month, d.day + 1)
    else if d.month < 12 then Date(d.year, d.month + 1, 1)
    else Date(d.year + 1, 1, 1)
  }

  /** Days of year y before month m. */
  function DaysBefore(y: int, m: int): int
    requires 1 <= m <= 12
  {
    if m == 1 then 0 else DaysBefore(y, m - 1) + DaysInMonth(y, m - 1)
  }

  /** Days of the years before year y, counted from year 1. */
  function YearStart(y: int): int {
    365 * (y - 1) + (y - 1) / 4 - (y - 1) / 100 + (y - 1) / 400
  }

  /** The number of days from 1970-01-01 to a date. */
  function DayNumber(d: Date): int
    requires Valid(d)
  {
    YearStart(d.year) + DaysBefore(d.year, d.month) + d.day - 719_163
  }

  // ----- the source -----

  /** Division of the source's signed integers: toward zero. */
  function TruncatingDiv(a: int, b: int): int
    requires b > 0
  {
    if a >= 0 then a / b else -(-a / b)
  }

  function CivilFromDays(days: int): Date {
    var z := days + 719_468;
    var era := TruncatingDiv(if z >= 0 then z else z - 146_096, 146_097);
    var dayOfEra := z - era * 146_097;
    var yearOfEra := YearOfEra(dayOfEra);
    var year := yearOfEra + era * 400;
    var dayOfYear := dayOfEra - (365 * yearOfEra + yearOfEra / 4 - yearOfEra / 100);
    var shifted := (5 * dayOfYear + 2) / 153;
    var day := dayOfYear - (153 * shifted + 2) / 5 + 1;
    var month := if shifted < 10 then shifted + 3 else shifted - 9;
    Date(if month <= 2 then year + 1 else year, month, day)
  }

  function YearOfEra(dayOfEra: int): int {
    (dayOfEra - dayOfEra / 1460 + dayOfEra / 36_524 - dayOfEra / 146_096) / 365
  }

  // ----- eras and years that begin in March -----

  /** Years of an era before year y of it, in days. */
  function MarchStart(y: int): int {
    365 * y + y / 4 - y / 100
  }

  /** The truncating form of the era is a floor. */
  lemma EraIsFloor(z: int)
    ensures TruncatingDiv(if z >= 0 then z else z - 146_096, 146_097) == z / 146_097
  {
    if z < 0 {
      var w := z - 146_096;
      var q := -w / 146_097;
      var r := -w % 146_097;
      assert z == 146_097 * (-q) + (146_096 - r);
    }
  }

  /** The digits of a day of an era: century, four-year group, year, day. */
  lemma Digits(e: int) returns (c: int, q: int, a: int, d: int)
    requires 0 <= e < 146_097
    ensures 0 <= c <= 3 && 0 <= q <= 24 && 0 <= a <= 3 && 0 <= d <= 365
    ensures e == 36_524 * c + 1461 * q + 365 * a + d
    ensures d == 365 ==> a == 3 && (q < 24 || c == 3)
  {
    c := if e == 146_096 then 3 else e / 36_524;
    var r := e - 36_524 * c;
    q := r / 1461;
    var s := r - 1461 * q;
    a := if s / 365 > 3 then 3 else s / 365;
    d := s - 365 * a;
  }

  /** The year formula recovers the year digits: each correction is worth at most one day, and only when a
      leap day is near. */
  lemma YearFromDigits(e: int, c: int, q: int, a: int, d: int)
    requires 0 <= c <= 3 && 0 <= q <= 24 && 0 <= a <= 3 && 0 <= d <= 365
    requires e == 36_524 * c + 1461 * q + 365 * a + d
    requires d == 365 ==> a == 3 && (q < 24 || c == 3)
    ensures YearOfEra(e) == 100 * c + 4 * q + a
    ensures MarchStart(100 * c + 4 * q + a) == e - d
  {
    var y := 100 * c + 4 * q + a;
    assert y / 4 == 25 * c + q && y / 100 == c;
    var last := if e == 146_096 then 1 else 0;
    assert e / 146_096 == last;
    assert e / 36_524 == c + last;
    var near := if 24 * c + q + 365 * a + d >= 1460 then 1 else 0;
    assert e / 1460 == 25 * c + q + near;
    assert e - e / 1460 + e / 36_524 - e / 146_096 == 365 * y + (d - near);
  }

  lemma Shift4(x: int, n: int)
    ensures (x + 4 * n) / 4 == x / 4 + n && (x + 4 * n) % 4 == x % 4
  {
  }

  lemma Back4(y: int)
    ensures y / 4 - (y - 1) / 4 == if y % 4 == 0 then 1 else 0
  {
  }

  lemma Shift100(x: int, n: int)
    ensures (x + 100 * n) / 100 == x / 100 + n && (x + 100 * n) % 100 == x % 100
  {
  }

  lemma Back100(y: int)
    ensures y / 100 - (y - 1) / 100 == if y % 100 == 0 then 1 else 0
  {
  }

  lemma Shift400(x: int, n: int)
    ensures (x + 400 * n) / 400 == x / 400 + n && (x + 400 * n) % 400 == x % 400
  {
  }

  lemma Back400(y: int)
    ensures y / 400 - (y - 1) / 400 == if y % 400 == 0 then 1 else 0
  {
  }

  /** The leap rule repeats every era. */
  lemma LeapPeriod(y: int, era: int)
    ensures IsLeap(y + 400 * era) == IsLeap(y)
  {
    Shift4(y, 100 * era);
    Shift100(y, 4 * era);
    Shift400(y, era);
  }

  lemma LeapDigits(c: int, q: int, a: int)
    requires 0 <= c <= 3 && 0 <= q <= 24 && 0 <= a <= 3
    ensures IsLeap(100 * c + 4 * q + a + 1) <==> a == 3 && (q < 24 || c == 3)
  {
    var y := 100 * c + 4 * q + a + 1;
    if a < 3 {
      assert y % 4 == a + 1;
    } else if q < 24 {
      assert y % 100 == 4 * q + 4;
    } else {
      assert y % 400 == if c == 3 then 0 else 100 * c + 100;
    }
  }

  // ----- months -----

  /** Month and day of a day counted from the first of March of year y. */
  function MonthDay(y: int, d: int): Date {
    var shifted := (5 * d + 2) / 153;
    var month := if shifted < 10 then shifted + 3 else shifted - 9;
    Date(if month <= 2 then y + 1 else y, month, d - (153 * shifted + 2) / 5 + 1)
  }

  /** Where the months stand in a year that begins in January. */
  lemma MonthTable(y: int)
    ensures var leap := if IsLeap(y) then 1 else 0;
            && DaysBefore(y, 1) == 0 && DaysBefore(y, 2) == 31 && DaysBefore(y, 3) == 59 + leap
            && DaysBefore(y, 4) == 90 + leap && DaysBefore(y, 5) == 120 + leap && DaysBefore(y, 6) == 151 + leap
            && DaysBefore(y, 7) == 181 + leap && DaysBefore(y, 8) == 212 + leap && DaysBefore(y, 9) == 243 + leap
            && DaysBefore(y, 10) == 273 + leap && DaysBefore(y, 11) == 304 + leap && DaysBefore(y, 12) == 334 + leap
  {
    hide IsLeap;
  }

  lemma MonthDayValid(y: int, d: int)
    requires 0 <= d <= 365 && (d == 365 ==> IsLeap(y + 1))
    ensures Valid(MonthDay(y, d))
    ensures MonthDay(y, d).year == (if d < 306 then y else y + 1)
    ensures DaysBefore(MonthDay(y, d).year, MonthDay(y, d).month) + MonthDay(y, d).day
         == if d < 306 then d + 60 + (if IsLeap(y) then 1 else 0) else d - 305
  {
    hide IsLeap;
    MonthTable(y);
    MonthTable(y + 1);
    var shifted := (5 * d + 2) / 153;
    assert 0 <= shifted <= 11;
  }

  /** January counting and March counting agree on where a March year begins. */
  lemma MarchYear(y: int)
    ensures YearStart(y) + 60 + (if IsLeap(y) then 1 else 0) == 365 * y + y / 4 - y / 100 + y / 400 - 305
    ensures YearStart(y + 1) == 365 * y + y / 4 - y / 100 + y / 400
  {
    Back4(y);
    Back100(y);
    Back400(y);
    LeapSum(y, if y % 4 == 0 then 1 else 0, if y % 100 == 0 then 1 else 0, if y % 400 == 0 then 1 else 0);
    hide IsLeap;
  }

  lemma LeapSum(y: int, four: int, hundred: int, all: int)
    requires four == (if y % 4 == 0 then 1 else 0) && hundred == (if y % 100 == 0 then 1 else 0)
    requires all == if y % 400 == 0 then 1 else 0
    ensures (if IsLeap(y) then 1 else 0) == four - hundred + all
  {
    Multiples(y);
  }

  lemma Multiples(y: int)
    ensures (y % 400 == 0 ==> y % 100 == 0) && (y % 100 == 0 ==> y % 4 == 0)
  {
    if y % 400 == 0 {
      Shift100(0, 4 * (y / 400));
    }
    if y % 100 == 0 {
      Shift4(0, 25 * (y / 100));
    }
  }

  lemma EraYears(era: int, y: int)
    requires 0 <= y < 400
    ensures var g := y + 400 * era;
            365 * g + g / 4 - g / 100 + g / 400 == 146_097 * era + MarchStart(y)
  {
    Shift4(y, 100 * era);
    Shift100(y, 4 * era);
    Shift400(y, era);
  }

  // ----- the conversion is right for every integer -----

  /** CivilFromDays yields a valid date, and the date has that day number. */
  lemma CivilIsRight(n: int)
    ensures Valid(CivilFromDays(n)) && DayNumber(CivilFromDays(n)) == n
  {
    hide IsLeap, YearOfEra, MarchStart, YearStart, DaysBefore, Valid, TruncatingDiv;
    var z := n + 719_468;
    EraIsFloor(z);
    var era := z / 146_097;
    var e := z - era * 146_097;
    var c, q, a, d := Digits(e);
    var y := 100 * c + 4 * q + a;
    YearFromDigits(e, c, q, a, d);
    LeapDigits(c, q, a);
    LeapPeriod(y + 1, era);
    assert CivilFromDays(n) == MonthDay(y + 400 * era, d) by { SameCivil(n, era, e, y, d); }
    MonthDayValid(y + 400 * era, d);
    MarchYear(y + 400 * era);
    EraYears(era, y);
  }

  lemma SameCivil(n: int, era: int, e: int, y: int, d: int)
    requires era == (n + 719_468) / 146_097 && e == n + 719_468 - era * 146_097
    requires y == YearOfEra(e) && d == e - MarchStart(y)
    ensures CivilFromDays(n) == MonthDay(y + 400 * era, d)
  {
    hide YearOfEra, TruncatingDiv;
    EraIsFloor(n + 719_468);
  }

  // ----- the calendar itself: one day number per date, and the next date has the next number -----

  predicate Before(a: Date, b: Date) {
    a.year < b.year || (a.year == b.year && (a.month < b.month || (a.month == b.month && a.day < b.day)))
  }

  lemma TomorrowIsNext(d: Date)
    requires Valid(d)
    ensures Valid(Tomorrow(d)) && DayNumber(Tomorrow(d)) == DayNumber(d) + 1
  {
    hide IsLeap;
    MonthTable(d.year);
    MonthTable(d.year + 1);
    if d.month == 12 && d.day == 31 {
      YearLength(d.year);
    }
  }

  lemma YearLength(y: int)
    ensures YearStart(y + 1) - YearStart(y) == if IsLeap(y) then 366 else 365
  {
    MarchYear(y);
  }

  lemma {:induction false} YearsGrow(y: int, w: int)
    requires y < w
    ensures YearStart(y) + (if IsLeap(y) then 366 else 365) <= YearStart(w)
    decreases w - y
  {
    hide YearStart, IsLeap;
    YearLength(w - 1);
    if y >= w - 1 {
    } else {
      YearsGrow(y, w - 1);
    }
  }

  lemma WithinYear(d: Date)
    requires Valid(d)
    ensures 1 <= DaysBefore(d.year, d.month) + d.day <= if IsLeap(d.year) then 366 else 365
  {
    hide IsLeap;
    MonthTable(d.year);
  }

  lemma {:induction false} MonthsGrow(y: int, m: int, k: int)
    requires 1 <= m < k <= 12
    ensures DaysBefore(y, m) + DaysInMonth(y, m) <= DaysBefore(y, k)
    decreases k
  {
    hide IsLeap;
    if m >= k - 1 {
    } else {
      MonthsGrow(y, m, k - 1);
    }
  }

  lemma OrderIsKept(a: Date, b: Date)
    requires Valid(a) && Valid(b) && Before(a, b)
    ensures DayNumber(a) < DayNumber(b)
  {
    hide IsLeap, YearStart, DaysBefore;
    if a.year < b.year {
      YearsGrow(a.year, b.year);
      WithinYear(a);
      WithinYear(b);
    } else if a.month < b.month {
      MonthsGrow(a.year, a.month, b.month);
    }
  }

  /** CivilFromDays and DayNumber are inverse to each other, so the days are in bijection with the valid dates. */
  lemma CivilRoundTrip(d: Date)
    requires Valid(d)
    ensures CivilFromDays(DayNumber(d)) == d
  {
    hide IsLeap, YearStart, DaysBefore, CivilFromDays, DayNumber, Valid;
    var c := CivilFromDays(DayNumber(d));
    CivilIsRight(DayNumber(d));
    if Before(c, d) {
      OrderIsKept(c, d);
    } else if Before(d, c) {
      OrderIsKept(d, c);
    }
  }

  lemma DayZero()
    ensures CivilFromDays(0) == Date(1970, 1, 1)
  {
  }

  /** Day 0 is 1970-01-01, and each day's date is the calendar successor of the date of the day before. */
  lemma CivilSucceeds(n: int)
    ensures CivilFromDays(0) == Date(1970, 1, 1)
    ensures Valid(CivilFromDays(n)) && CivilFromDays(n + 1) == Tomorrow(CivilFromDays(n))
  {
    hide DayNumber, Tomorrow, CivilFromDays, Valid;
    DayZero();
    CivilIsRight(n);
    TomorrowIsNext(CivilFromDays(n));
    CivilRoundTrip(Tomorrow(CivilFromDays(n)));
  }

  /** Later days have later dates. */
  lemma CivilKeepsOrder(m: int, n: int)
    requires m < n
    ensures Before(CivilFromDays(m), CivilFromDays(n))
  {
    hide CivilFromDays, DayNumber, Valid;
    CivilIsRight(m);
    CivilIsRight(n);
    if Before(CivilFromDays(n), CivilFromDays(m)) {
      OrderIsKept(CivilFromDays(n), CivilFromDays(m));
    }
  }
}
