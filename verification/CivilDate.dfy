/**
 Turning a count of days since 1970-01-01 into a date of the proleptic Gregorian
 calendar without a loop.  The calendar is defined by its leap years and month
 lengths; the conversion is proved to be the inverse of counting days in it.
 */
module CivilDate {

  // ----- the calendar -----

  datatype Date = Date(year: int, month: int, day: int)

  predicate Leap(y: int) { y % 4 == 0 && (y % 100 != 0 || y % 400 == 0) }

  function DaysIn(y: int, m: int): int {
    if m == 2 then (if Leap(y) then 29 else 28) else if m in {4, 6, 9, 11} then 30 else 31
  }

  predicate Valid(d: Date) { 1 <= d.month <= 12 && 1 <= d.day <= DaysIn(d.year, d.month) }

  function NextDay(d: Date): Date {
    if d.day < DaysIn(d.year, d.month) then Date(d.year, d.month, d.day + 1)
    else if d.month < 12 then Date(d.year, d.month + 1, 1)
    else Date(d.year + 1, 1, 1)
  }

  /** Days from 0001-01-01 to the first day of a year. */
  function BeforeYear(y: int): int { 365 * (y - 1) + (y - 1) / 4 - (y - 1) / 100 + (y - 1) / 400 }

  function BeforeMonth(y: int, m: int): int
    decreases m
  {
    if m <= 1 then 0 else BeforeMonth(y, m - 1) + DaysIn(y, m - 1)
  }

  /** Days from 1970-01-01. */
  function DayNumber(d: Date): int { BeforeYear(d.year) + BeforeMonth(d.year, d.month) + d.day - 1 - 719162 }

  predicate Earlier(a: Date, b: Date) {
    a.year < b.year || (a.year == b.year && (a.month < b.month || (a.month == b.month && a.day < b.day)))
  }

  // ----- the conversion, in 64-bit arithmetic -----

  newtype i64 = x: int | -0x8000_0000_0000_0000 <= x < 0x8000_0000_0000_0000

  /** Division truncates towards zero. */
  function Quotient(a: int, b: int): int
    requires b > 0
  {
    if a >= 0 then a / b else -((-a) / b)
  }

  /** The 400-year era of a shifted day count.  From here on every intermediate
      value fits: the type checks each operation and each cast. */
  function EraOf(z: i64): (era: i64)
    requires z >= -0x8000_0000_0000_0000 + 719468
    ensures era as int == z as int / 146097
  {
    EraMeans(z as int);
    Quotient((if z >= 0 then z else z - 146096) as int, 146097) as i64
  }

  function YearOfEraDay(doe: i64): (yoe: i64)
    requires 0 <= doe < 146097
    ensures yoe as int == YearOf(doe as int)
  {
    YearOfEra(doe as int);
    Quotient((doe - Quotient(doe as int, 1460) as i64 + Quotient(doe as int, 36524) as i64
              - Quotient(doe as int, 146096) as i64) as int, 365) as i64
  }

  function DayOfYear(doe: i64, yoe: i64): (doy: i64)
    requires 0 <= doe < 146097 && 0 <= yoe < 400
    ensures doy as int == doe as int - YearStart(yoe as int)
  {
    doe - (365 * yoe + Quotient(yoe as int, 4) as i64 - Quotient(yoe as int, 100) as i64)
  }

  /** Month and day of a year counted from March. */
  function MonthAndDay(doy: i64): (r: (i64, i64))
    requires 0 <= doy <= 365
    ensures var mp := (5 * (doy as int) + 2) / 153;
      r.0 as int == (if mp < 10 then mp + 3 else mp - 9) && r.1 as int == doy as int - (153 * mp + 2) / 5 + 1
  {
    var mp := Quotient((5 * doy + 2) as int, 153) as i64;
    (mp + (if mp < 10 then 3 else -9), doy - Quotient((153 * mp + 2) as int, 5) as i64 + 1)
  }

  lemma CivilIs(days: int, era: int, doe: int, yoe: int, mp: int, month: int, day: int)
    requires era == (days + 719468) / 146097 && doe == (days + 719468) % 146097 && yoe == YearOf(doe)
    requires mp == (5 * (doe - YearStart(yoe)) + 2) / 153
    requires month == (if mp < 10 then mp + 3 else mp - 9) && day == doe - YearStart(yoe) - (153 * mp + 2) / 5 + 1
    ensures Civil(days) == Date(yoe + era * 400 + (if month <= 2 then 1 else 0), month, day)
  {
    hide YearOf, YearStart;
  }

  function CivilFromDays(days: i64): (r: (i64, i64, i64))
    requires days <= 0x7fff_ffff_ffff_ffff - 719468
    ensures Date(r.0 as int, r.1 as int, r.2 as int) == Civil(days as int)
  {
    hide YearOf, YearStart, Leap, Civil;
    var z := days + 719468;
    var era := EraOf(z);
    EraMeans(z as int);
    var doe := z - era * 146097;
    YearOfEra(doe as int);
    var yoe := YearOfEraDay(doe);
    var y := yoe + era * 400;
    var doy := DayOfYear(doe, yoe);
    var r := MonthAndDay(doy);
    CivilIs(days as int, era as int, doe as int, yoe as int, (5 * (doy as int) + 2) / 153, r.0 as int, r.1 as int);
    (y + (if r.0 <= 2 then 1 else 0), r.0, r.1)
  }

  /** A time of day with its date, as seconds since 1970 are shown; this division is Euclidean. */
  function FromUnixTime(seconds: i64): (r: (Date, int, int, int))
    ensures Valid(r.0) && 0 <= r.1 < 24 && 0 <= r.2 < 60 && 0 <= r.3 < 60
    ensures seconds as int == DayNumber(r.0) * 86400 + r.1 * 3600 + r.2 * 60 + r.3
  {
    hide Civil, DayNumber, Valid;
    var days := (seconds as int / 86400) as i64;
    var secs := seconds as int % 86400;
    var r := CivilFromDays(days);
    CivilIsInverse(days as int);
    SecondsMean(seconds as int);
    (Date(r.0 as int, r.1 as int, r.2 as int), secs / 3600, secs % 3600 / 60, secs % 60)
  }

  lemma SecondsMean(n: int)
    ensures n == n / 86400 * 86400 + n % 86400
    ensures var s := n % 86400;
      s == s / 3600 * 3600 + s % 3600 / 60 * 60 + s % 60 && 0 <= s / 3600 < 24 && 0 <= s % 3600 / 60 < 60
  {
  }

  // ----- the conversion on unbounded integers -----

  function YearOf(doe: int): int { (doe - doe / 1460 + doe / 36524 - doe / 146096) / 365 }

  function YearStart(yoe: int): int { 365 * yoe + yoe / 4 - yoe / 100 }

  function Civil(days: int): Date {
    var z := days + 719468;
    var era := z / 146097;
    var doe := z % 146097;
    var yoe := YearOf(doe);
    var doy := doe - YearStart(yoe);
    var mp := (5 * doy + 2) / 153;
    var month := if mp < 10 then mp + 3 else mp - 9;
    Date(yoe + era * 400 + (if month <= 2 then 1 else 0), month, doy - (153 * mp + 2) / 5 + 1)
  }

  /** Truncation after a shift by one less than the divisor is the floor. */
  lemma EraMeans(z: int)
    ensures z >= 0 ==> z / 146097 * 146097 <= z < z / 146097 * 146097 + 146097
    ensures z < 0 ==> -((146096 - z) / 146097) == z / 146097
    ensures z - z / 146097 * 146097 == z % 146097
  {
  }

  lemma Div1460(a: int, q: int)
    requires 1460 * q <= a < 1460 * q + 1460
    ensures a / 1460 == q
  {
  }

  lemma Div36524(a: int, q: int)
    requires 36524 * q <= a < 36524 * q + 36524
    ensures a / 36524 == q
  {
  }

  lemma Div146096(a: int, q: int)
    requires 146096 * q <= a < 146096 * q + 146096
    ensures a / 146096 == q
  {
  }

  lemma Div365(a: int, q: int)
    requires 365 * q <= a < 365 * q + 365
    ensures a / 365 == q
  {
  }

  lemma DivCentury(y: int, c: int)
    requires 100 * c <= y < 100 * c + 100
    ensures y / 100 == c
  {
  }

  lemma DivFour(y: int, q: int)
    requires 4 * q <= y < 4 * q + 4
    ensures y / 4 == q
  {
  }

  /** A day of the era by century, leap-year cycle and year: the formula finds the year. */
  lemma YearFound(c: int, q: int, yr: int, s: int, doe: int)
    requires 0 <= c < 4 && 0 <= q < 25 && 0 <= yr < 4 && 0 <= s <= 1460 && doe == 36524 * c + 1461 * q + s
    requires q < 24 || s < 1460 || c == 3
    requires 365 * yr <= s && (s < 365 * yr + 365 || yr == 3)
    ensures YearOf(doe) == 100 * c + 4 * q + yr && YearStart(YearOf(doe)) == 36524 * c + 1461 * q + 365 * yr
  {
    var e := if 24 * c + q + s >= 1460 then 1 else 0;
    Div1460(doe, 25 * c + q + e);
    var last := if c == 3 && q == 24 && s == 1460 then 1 else 0;
    Div36524(doe, c + last);
    Div146096(doe, last);
    var y := 100 * c + 4 * q + yr;
    Div365(36500 * c + 1460 * q + s - e, y);
    DivFour(y, 25 * c + q);
    DivCentury(y, c);
  }

  /** Every day of the era lies in its year, and only leap years have a 366th day. */
  lemma YearOfEra(doe: int)
    requires 0 <= doe < 146097
    ensures 0 <= YearOf(doe) < 400 && 0 <= doe - YearStart(YearOf(doe)) <= 365
    ensures doe - YearStart(YearOf(doe)) == 365 ==> Leap(YearOf(doe) + 1)
    ensures 0 <= doe - doe / 1460 + doe / 36524 - doe / 146096
  {
    var c := if doe == 146096 then 3 else doe / 36524;
    var r := doe - 36524 * c;
    var q := if r == 36524 then 24 else r / 1461;
    var s := r - 1461 * q;
    var yr := if s / 365 < 3 then s / 365 else 3;
    YearFound(c, q, yr, s, doe);
    if doe - YearStart(YearOf(doe)) == 365 {
      assert yr == 3 && s == 1460;
      LeapAtEnd(c, q);
    }
  }

  lemma LeapAtEnd(c: int, q: int)
    requires 0 <= c < 4 && 0 <= q < 25 && (q < 24 || c == 3)
    ensures Leap(100 * c + 4 * q + 4)
  {
    assert (100 * c + 4 * q + 4) == 4 * (25 * c + q + 1);
    if q < 24 {
      assert (100 * c + 4 * q + 4) % 100 == 4 * q + 4;
    }
  }

  // ----- counting back -----

  lemma FloorStep(y: int)
    ensures y / 4 - (y - 1) / 4 == if y % 4 == 0 then 1 else 0
    ensures y / 100 - (y - 1) / 100 == if y % 100 == 0 then 1 else 0
    ensures y / 400 - (y - 1) / 400 == if y % 400 == 0 then 1 else 0
  {
  }

  lemma LeapCount(y: int)
    ensures y / 4 - y / 100 + y / 400 - ((y - 1) / 4 - (y - 1) / 100 + (y - 1) / 400) == if Leap(y) then 1 else 0
  {
    FloorStep(y);
    assert y % 400 == 0 ==> y % 100 == 0;
    assert y % 100 == 0 ==> y % 4 == 0;
  }

  lemma YearLength(y: int)
    ensures BeforeYear(y + 1) == BeforeYear(y) + 365 + (if Leap(y) then 1 else 0)
  {
    LeapCount(y);
  }

  lemma MonthTable(y: int)
    ensures var e := if Leap(y) then 1 else 0;
      && BeforeMonth(y, 1) == 0 && BeforeMonth(y, 2) == 31 && BeforeMonth(y, 3) == 59 + e && BeforeMonth(y, 4) == 90 + e
      && BeforeMonth(y, 5) == 120 + e && BeforeMonth(y, 6) == 151 + e && BeforeMonth(y, 7) == 181 + e && BeforeMonth(y, 8) == 212 + e
      && BeforeMonth(y, 9) == 243 + e && BeforeMonth(y, 10) == 273 + e && BeforeMonth(y, 11) == 304 + e && BeforeMonth(y, 12) == 334 + e
  {
    assert BeforeMonth(y, 2) == 31;
    assert BeforeMonth(y, 4) == BeforeMonth(y, 3) + 31;
    assert BeforeMonth(y, 6) == BeforeMonth(y, 5) + 31;
    assert BeforeMonth(y, 8) == BeforeMonth(y, 7) + 31;
    assert BeforeMonth(y, 10) == BeforeMonth(y, 9) + 30;
  }

  /** Months counted from March, and the day within one. */
  lemma MonthOfYear(y: int, doy: int)
    requires 0 <= doy <= 365
    ensures var mp := (5 * doy + 2) / 153;
      var day := doy - (153 * mp + 2) / 5 + 1;
      && 0 <= mp <= 11 && 1 <= day
      && (mp < 10 ==> day <= DaysIn(y, mp + 3) && BeforeMonth(y, mp + 3) + day - 1 == 59 + (if Leap(y) then 1 else 0) + doy)
      && (mp >= 10 ==> BeforeMonth(y + 1, mp - 9) + day - 1 == doy - 306)
      && (mp == 10 ==> day <= 31)
      && (mp == 11 ==> day <= 29 && (day == 29 ==> doy == 365))
  {
    MonthTable(y);
    MonthTable(y + 1);
  }

  /** Years counted from March start where the calendar says. */
  lemma MarchYear(y: int)
    ensures BeforeYear(y) + 59 + (if Leap(y) then 1 else 0) == 365 * y + y / 4 - y / 100 + y / 400 - 306
    ensures BeforeYear(y + 1) == 365 * y + y / 4 - y / 100 + y / 400
  {
    LeapCount(y);
  }

  lemma EraShift(era: int, yoe: int)
    requires 0 <= yoe < 400
    ensures var y := yoe + era * 400;
      365 * y + y / 4 - y / 100 + y / 400 == 146097 * era + YearStart(yoe)
    ensures Leap(yoe + era * 400 + 1) == Leap(yoe + 1)
  {
    var y := yoe + era * 400;
    assert y / 400 == era;
    assert y / 100 == 4 * era + yoe / 100;
    assert y / 4 == 100 * era + yoe / 4;
  }

  /** A date from a year counted from March and a day in it. */
  function FromMarch(y: int, doy: int): Date {
    var mp := (5 * doy + 2) / 153;
    var month := if mp < 10 then mp + 3 else mp - 9;
    Date(y + (if month <= 2 then 1 else 0), month, doy - (153 * mp + 2) / 5 + 1)
  }

  lemma FromMarchMeans(y: int, doy: int)
    requires 0 <= doy <= 365 && (doy == 365 ==> Leap(y + 1))
    ensures Valid(FromMarch(y, doy)) && DayNumber(FromMarch(y, doy)) == 365 * y + y / 4 - y / 100 + y / 400 + doy - 719468
  {
    hide BeforeYear, BeforeMonth, Leap;
    MarchYear(y);
    MonthOfYear(y, doy);
  }

  /** The conversion gives a date of the calendar, and counting its days gives the argument back. */
  lemma CivilIsInverse(n: int)
    ensures Valid(Civil(n)) && DayNumber(Civil(n)) == n
  {
    var z := n + 719468;
    var era, doe := z / 146097, z % 146097;
    var yoe := YearOf(doe);
    var y, doy := yoe + era * 400, doe - YearStart(yoe);
    assert Civil(n) == FromMarch(y, doy);
    hide YearOf, YearStart, Civil, FromMarch, Valid, DayNumber, Leap;
    YearOfEra(doe);
    EraShift(era, yoe);
    FromMarchMeans(y, doy);
    assert z == 146097 * era + doe;
  }

  lemma OrderedInYear(a: Date, b: Date)
    requires Valid(a) && Valid(b) && a.year == b.year && Earlier(a, b)
    ensures DayNumber(a) < DayNumber(b)
  {
    hide BeforeYear;
    if a.month < b.month {
      MonthsOrdered(a.year, a.month + 1, b.month);
    }
  }

  /** Dates are counted in calendar order. */
  lemma DayNumberOrdered(a: Date, b: Date)
    requires Valid(a) && Valid(b) && Earlier(a, b)
    ensures DayNumber(a) < DayNumber(b)
  {
    if a.year < b.year {
      hide BeforeYear, DayNumber, Valid;
      WithinYear(a);
      WithinYear(b);
      YearsOrdered(a.year + 1, b.year);
    } else {
      hide DayNumber, Valid;
      OrderedInYear(a, b);
    }
  }

  lemma {:induction false} MonthsOrdered(y: int, m: int, n: int)
    requires 1 <= m <= n
    ensures BeforeMonth(y, m) <= BeforeMonth(y, n)
    decreases n - m
  {
    if m < n {
      MonthsOrdered(y, m, n - 1);
    }
  }

  lemma WithinYear(d: Date)
    requires Valid(d)
    ensures BeforeYear(d.year) - 719162 <= DayNumber(d) < BeforeYear(d.year + 1) - 719162
  {
    YearLength(d.year);
    MonthTable(d.year);
  }

  lemma {:induction false} YearsOrdered(y: int, z: int)
    requires y <= z
    ensures BeforeYear(y) <= BeforeYear(z)
    decreases z - y
  {
    if y < z {
      YearLength(y);
      YearsOrdered(y + 1, z);
    }
  }

  /** And every date is reached: the conversion is a bijection onto the calendar. */
  lemma CivilOfDayNumber(d: Date)
    requires Valid(d)
    ensures Civil(DayNumber(d)) == d
  {
    var e := Civil(DayNumber(d));
    CivilIsInverse(DayNumber(d));
    if Earlier(d, e) {
      DayNumberOrdered(d, e);
    } else if Earlier(e, d) {
      DayNumberOrdered(e, d);
    }
  }

  lemma NextDayCounts(d: Date)
    requires Valid(d)
    ensures Valid(NextDay(d)) && DayNumber(NextDay(d)) == DayNumber(d) + 1
  {
    YearLength(d.year);
    MonthTable(d.year);
    MonthTable(d.year + 1);
  }

  lemma EpochIsZero()
    ensures Valid(Date(1970, 1, 1)) && DayNumber(Date(1970, 1, 1)) == 0
  {
  }

  /** One day later is the next day of the calendar. */
  lemma CivilSuccessor(n: int)
    ensures Civil(0) == Date(1970, 1, 1)
    ensures Civil(n + 1) == NextDay(Civil(n))
  {
    EpochIsZero();
    hide Civil, DayNumber, NextDay, Valid;
    CivilIsInverse(n);
    NextDayCounts(Civil(n));
    CivilOfDayNumber(NextDay(Civil(n)));
    CivilOfDayNumber(Date(1970, 1, 1));
  }

  /** Later days have later dates. */
  lemma CivilOrdered(m: int, n: int)
    requires m < n
    ensures Earlier(Civil(m), Civil(n))
  {
    CivilIsInverse(m);
    CivilIsInverse(n);
    if Earlier(Civil(n), Civil(m)) {
      DayNumberOrdered(Civil(n), Civil(m));
    }
  }
}
