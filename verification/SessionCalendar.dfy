/** The Gregorian calendar and the NSE session calendar on YYYYMMDD integers. */
module SessionCalendar {
  import opened Domain

  /** A date encoded as year * 10000 + month * 100 + day. */
  type SessionDate = int

  function Year(d: SessionDate): int { d / 10000 }
  function Month(d: SessionDate): int { (d / 100) % 100 }
  function Day(d: SessionDate): int { d % 100 }
  function FromParts(y: int, m: int, d: int): SessionDate { y * 10000 + m * 100 + d }

  predicate Leap(y: int) { (y % 4 == 0 && y % 100 != 0) || y % 400 == 0 }

  function DaysInMonth(y: int, m: int): int
    requires 1 <= m <= 12
  {
    if m == 2 then (if Leap(y) then 29 else 28)
    else if m == 4 || m == 6 || m == 9 || m == 11 then 30
    else 31
  }

  /** 1970-01-01, the first date a timestamp can fall on. */
  const EPOCH: SessionDate := 19700101

  /** Day number of EPOCH. */
  const EPOCH_DAY := 719163

  /** d encodes a date of the Gregorian calendar (year 1 or later). */
  predicate IsDate(d: SessionDate) {
    Year(d) >= 1 && 1 <= Month(d) <= 12 && 1 <= Day(d) <= DaysInMonth(Year(d), Month(d))
  }

  lemma PartsOf(y: int, m: int, d: int)
    requires 0 <= m < 100 && 0 <= d < 100
    ensures Year(FromParts(y, m, d)) == y
    ensures Month(FromParts(y, m, d)) == m
    ensures Day(FromParts(y, m, d)) == d
  {
    var x := FromParts(y, m, d);
    assert x / 100 == y * 100 + m;
  }

  lemma MakesDate(y: int, m: int, d: int)
    requires y >= 1 && 1 <= m <= 12 && 1 <= d <= DaysInMonth(y, m)
    ensures IsDate(FromParts(y, m, d))
    ensures DayNumber(FromParts(y, m, d)) == DaysBeforeYear(y) + DaysBeforeMonth(y, m) + d
  {
    hide Leap; hide Year; hide Month; hide Day; hide FromParts; hide DaysBeforeYear; hide DaysBeforeMonth;
    PartsOf(y, m, d);
  }

  function NextCalendarDay(date: SessionDate): (r: SessionDate)
    requires IsDate(date)
    ensures IsDate(r)
  {
    var y, m, d := Year(date), Month(date), Day(date) + 1;
    var over := d > DaysInMonth(y, m);
    var (y1, m1, d1) :=
      if !over then (y, m, d) else if m == 12 then (y + 1, 1, 1) else (y, m + 1, 1);
    MakesDate(y1, m1, d1);
    FromParts(y1, m1, d1)
  }

  function PrevCalendarDay(date: SessionDate): (r: SessionDate)
    requires IsDate(date) && date > 10101
    ensures IsDate(r)
  {
    FirstOfCalendar(date);
    var y, m, d := Year(date), Month(date), Day(date) - 1;
    var (y1, m1) := if d < 1 && m == 1 then (y - 1, 12) else if d < 1 then (y, m - 1) else (y, m);
    var d1 := if d < 1 then DaysInMonth(y1, m1) else d;
    MakesDate(y1, m1, d1);
    FromParts(y1, m1, d1)
  }

  lemma FirstOfCalendar(d: SessionDate)
    requires IsDate(d) && d > 10101
    ensures Day(d) == 1 && Month(d) == 1 ==> Year(d) > 1
  {}

  // ---------------------------------------------------------------- day numbers

  /** Days of the calendar before 1 January of year y, counting from 0001-01-01. */
  function DaysBeforeYear(y: int): int {
    365 * (y - 1) + (y - 1) / 4 - (y - 1) / 100 + (y - 1) / 400
  }

  function DaysBeforeMonth(y: int, m: int): int
    requires 1 <= m <= 12
  {
    [0, 0, 31, 59, 90, 120, 151, 181, 212, 243, 273, 304, 334][m] + if m > 2 && Leap(y) then 1 else 0
  }

  /** Proleptic Gregorian day number; 0001-01-01 is day 1. */
  function DayNumber(d: SessionDate): int
    requires IsDate(d)
  {
    DaysBeforeYear(Year(d)) + DaysBeforeMonth(Year(d), Month(d)) + Day(d)
  }

  lemma YearLength(y: int)
    ensures DaysBeforeYear(y + 1) == DaysBeforeYear(y) + if Leap(y) then 366 else 365
  {
    var x := y - 1;
    var (a, b, c) := (x / 4, x / 100, x / 400);
    FoursStep(x);
    HundredsStep(x);
    FourHundredsStep(x);
    HundredIsFour(y);
    assert DaysBeforeYear(y) == 365 * x + a - b + c;
    assert DaysBeforeYear(y + 1) == 365 * y + y / 4 - y / 100 + y / 400;
  }

  lemma FoursStep(x: int)
    ensures (x + 1) / 4 == x / 4 + if (x + 1) % 4 == 0 then 1 else 0
  {}

  lemma HundredsStep(x: int)
    ensures (x + 1) / 100 == x / 100 + if (x + 1) % 100 == 0 then 1 else 0
  {}

  lemma FourHundredsStep(x: int)
    ensures (x + 1) / 400 == x / 400 + if (x + 1) % 400 == 0 then 1 else 0
  {}

  lemma HundredIsFour(y: int)
    ensures y % 100 == 0 ==> y % 4 == 0
    ensures y % 400 == 0 ==> y % 100 == 0
  {}

  /** next_calendar_day advances the day number by exactly one. */
  lemma NextAddsOneDay(d: SessionDate)
    requires IsDate(d)
    ensures DayNumber(NextCalendarDay(d)) == DayNumber(d) + 1
  {
    hide Leap; hide Year; hide Month; hide Day; hide FromParts; hide DaysBeforeYear; hide DaysBeforeMonth;
    var y, m, dd := Year(d), Month(d), Day(d) + 1;
    if dd <= DaysInMonth(y, m) {
      MakesDate(y, m, dd);
    } else if m < 12 {
      MakesDate(y, m + 1, 1);
      MonthStep(y, m);
    } else {
      MakesDate(y + 1, 1, 1);
      YearStep(y);
    }
  }

  lemma MonthStep(y: int, m: int)
    requires 1 <= m < 12
    ensures DaysBeforeMonth(y, m + 1) == DaysBeforeMonth(y, m) + DaysInMonth(y, m)
  {
    hide Leap;
  }

  lemma YearStep(y: int)
    ensures DaysBeforeYear(y + 1) + DaysBeforeMonth(y + 1, 1) == DaysBeforeYear(y) + DaysBeforeMonth(y, 12) + 31
  {
    YearLength(y);
    hide Leap; hide DaysBeforeYear;
  }

  /** prev_calendar_day moves the day number back by exactly one. */
  lemma PrevSubtractsOneDay(d: SessionDate)
    requires IsDate(d) && d > 10101
    ensures DayNumber(PrevCalendarDay(d)) == DayNumber(d) - 1
  {
    FirstOfCalendar(d);
    hide Leap; hide Year; hide Month; hide Day; hide FromParts; hide DaysBeforeYear; hide DaysBeforeMonth;
    var y, m, dd := Year(d), Month(d), Day(d);
    if dd > 1 {
      MakesDate(y, m, dd - 1);
    } else if m > 1 {
      MakesDate(y, m - 1, DaysInMonth(y, m - 1));
      MonthStep(y, m - 1);
    } else {
      MakesDate(y - 1, 12, 31);
      YearStep(y - 1);
    }
  }

  lemma {:induction false} YearsGrow(y1: int, y2: int)
    requires y1 < y2
    ensures DaysBeforeYear(y1) + (if Leap(y1) then 366 else 365) <= DaysBeforeYear(y2)
    decreases y2 - y1
  {
    YearLength(y1);
    if y1 + 1 < y2 { YearsGrow(y1 + 1, y2); }
  }

  lemma MonthsGrow(y: int, m1: int, m2: int)
    requires 1 <= m1 < m2 <= 12
    ensures DaysBeforeMonth(y, m1) + DaysInMonth(y, m1) <= DaysBeforeMonth(y, m2)
  {}

  lemma DaysFitInYear(y: int, m: int)
    requires 1 <= m <= 12
    ensures DaysBeforeMonth(y, m) + DaysInMonth(y, m) <= if Leap(y) then 366 else 365
  {}

  lemma Decode(d: SessionDate)
    ensures d == Year(d) * 10000 + Month(d) * 100 + Day(d)
  {
    assert d / 10000 == d / 100 / 100;
    assert d == 100 * (d / 100) + d % 100;
    assert d / 100 == 100 * (d / 100 / 100) + (d / 100) % 100;
  }

  /** Encoded dates compare as (year, month, day) triples do. */
  lemma EncodingOrder(a: SessionDate, b: SessionDate)
    requires IsDate(a) && IsDate(b) && a < b
    ensures Year(a) < Year(b)
      || (Year(a) == Year(b) && (Month(a) < Month(b) || (Month(a) == Month(b) && Day(a) < Day(b))))
  {
    Decode(a); Decode(b);
    hide Year; hide Month; hide Day; hide Leap;
  }

  lemma DayNumberGrows(a: SessionDate, b: SessionDate)
    requires IsDate(a) && IsDate(b) && a < b
    ensures DayNumber(a) < DayNumber(b)
  {
    EncodingOrder(a, b);
    if Year(a) < Year(b) {
      YearsGrow(Year(a), Year(b));
      DaysFitInYear(Year(a), Month(a));
    } else if Month(a) < Month(b) {
      MonthsGrow(Year(a), Month(a), Month(b));
    }
  }

  /** The ymd encoding orders dates exactly as the calendar does. */
  lemma OrderIsDayOrder(a: SessionDate, b: SessionDate)
    requires IsDate(a) && IsDate(b)
    ensures a < b <==> DayNumber(a) < DayNumber(b)
    ensures a == b <==> DayNumber(a) == DayNumber(b)
  {
    if a < b { DayNumberGrows(a, b); } else if b < a { DayNumberGrows(b, a); }
  }

  /** The successor is later, and no date lies strictly between a date and its successor. */
  lemma NothingBetween(d: SessionDate, e: SessionDate)
    requires IsDate(d) && IsDate(e)
    ensures NextCalendarDay(d) > d
    ensures e > d <==> e >= NextCalendarDay(d)
  {
    hide NextCalendarDay; hide DayNumber; hide IsDate;
    NextAddsOneDay(d);
    OrderIsDayOrder(d, NextCalendarDay(d));
    OrderIsDayOrder(d, e);
    OrderIsDayOrder(e, NextCalendarDay(d));
  }

  lemma FirstDate(d: SessionDate)
    requires IsDate(d)
    ensures d >= 10101
  {}

  /** next_calendar_day and prev_calendar_day are mutual inverses. */
  lemma NextPrevInverse(d: SessionDate)
    requires IsDate(d)
    ensures PrevCalendarDay(NextCalendarDay(d)) == d
    ensures d > 10101 ==> NextCalendarDay(PrevCalendarDay(d)) == d
  {
    hide NextCalendarDay; hide PrevCalendarDay; hide DayNumber; hide IsDate;
    var n := NextCalendarDay(d);
    NextAddsOneDay(d);
    NothingBetween(d, d);
    FirstDate(d);
    PrevSubtractsOneDay(n);
    OrderIsDayOrder(PrevCalendarDay(n), d);
    if d > 10101 {
      var p := PrevCalendarDay(d);
      PrevSubtractsOneDay(d);
      NextAddsOneDay(p);
      OrderIsDayOrder(NextCalendarDay(p), d);
    }
  }

  // ---------------------------------------------------------------- session days

  function Sakamoto(m: int): int
    requires 1 <= m <= 12
  {
    [0, 3, 2, 5, 0, 3, 5, 1, 4, 6, 2, 4][m - 1]
  }

  /** Sakamoto's day of the week, 0 = Sunday. */
  function WeekdaySun0(date: SessionDate): int
    requires IsDate(date)
  {
    var y := if Month(date) < 3 then Year(date) - 1 else Year(date);
    (y + y / 4 - y / 100 + y / 400 + Sakamoto(Month(date)) + Day(date)) % 7
  }

  /** Sakamoto's formula is the day number modulo seven, so it advances by one a day;
      0001-01-01 was a Monday. */
  lemma WeekdayIsDayNumber(d: SessionDate)
    requires IsDate(d)
    ensures WeekdaySun0(d) == DayNumber(d) % 7
    ensures WeekdaySun0(NextCalendarDay(d)) == (WeekdaySun0(d) + 1) % 7
  {
    WeekdayFormula(d);
    WeekdayOfNext(d);
  }

  lemma ModSeven(x: int, k: int)
    ensures (x + k) % 7 == (x % 7 + k) % 7
  {
    assert x + k == x % 7 + k + 7 * (x / 7);
  }

  lemma WeekdayOfNext(d: SessionDate)
    requires IsDate(d)
    ensures WeekdaySun0(NextCalendarDay(d)) == (WeekdaySun0(d) + 1) % 7
  {
    NextAddsOneDay(d);
    WeekdayOfFollowing(d, NextCalendarDay(d), DayNumber(d));
  }

  lemma WeekdayOfFollowing(d: SessionDate, e: SessionDate, n: int)
    requires IsDate(d) && IsDate(e) && DayNumber(d) == n && DayNumber(e) == n + 1
    ensures WeekdaySun0(e) == (WeekdaySun0(d) + 1) % 7
  {
    WeekdayOf(d, n);
    WeekdayOf(e, n + 1);
    ModSeven(n, 1);
  }

  lemma WeekdayOf(d: SessionDate, n: int)
    requires IsDate(d) && DayNumber(d) == n
    ensures WeekdaySun0(d) == n % 7
  {
    WeekdayFormula(d);
  }

  lemma WeekdayFormula(d: SessionDate)
    requires IsDate(d)
    ensures WeekdaySun0(d) == DayNumber(d) % 7
  {
    var y, m := Year(d), Month(d);
    var z := if m < 3 then y - 1 else y;
    YearLength(y);
    SakamotoOffsets(y, m);
    hide Leap; hide Year; hide Month; hide Day; hide Sakamoto; hide SakamotoWeeks; hide DaysBeforeMonth; hide IsDate;
    var sak := z + z / 4 - z / 100 + z / 400 + Sakamoto(m) + Day(d);
    assert DaysBeforeYear(z + 1) == 365 * z + z / 4 - z / 100 + z / 400;
    var k := 52 * z + SakamotoWeeks(m) - (if m < 3 then 0 else 52);
    assert DayNumber(d) == sak + 7 * k;
    SameModSeven(sak, k);
  }

  lemma SameModSeven(x: int, k: int)
    ensures (x + 7 * k) % 7 == x % 7
  {}

  function SakamotoWeeks(m: int): int
    requires 1 <= m <= 12
  {
    [0, 4, 8, 12, 17, 21, 25, 30, 34, 38, 43, 47][m - 1]
  }

  lemma SakamotoOffsets(y: int, m: int)
    requires 1 <= m <= 12
    ensures m < 3 ==> DaysBeforeMonth(y, m) == Sakamoto(m) + 7 * SakamotoWeeks(m)
    ensures m >= 3 ==> DaysBeforeMonth(y, m) == Sakamoto(m) + 7 * SakamotoWeeks(m) + 1 + (if Leap(y) then 1 else 0)
  {}

  predicate IsWeekend(d: SessionDate)
    requires IsDate(d)
  {
    WeekdaySun0(d) == 0 || WeekdaySun0(d) == 6
  }

  predicate IsNseHoliday(d: SessionDate) {
    d == 20260126 || d == 20260303 || d == 20260403 || d == 20260414 || d == 20260501 ||
    d == 20260815 || d == 20261002 || d == 20261124 || d == 20261225
  }

  /** A calendar date on which the exchange is open. */
  predicate IsSession(d: SessionDate) {
    IsDate(d) && !IsWeekend(d) && !IsNseHoliday(d)
  }

  /** Sessions are Monday to Friday (0001-01-01 was a Monday) but for nine holidays of 2026. */
  lemma SessionIff(d: SessionDate)
    requires IsDate(d)
    ensures IsSession(d) <==>
      1 <= DayNumber(d) % 7 <= 5 &&
      d !in [20260126, 20260303, 20260403, 20260414, 20260501, 20260815, 20261002, 20261124, 20261225]
  {
    hide DayNumber; hide WeekdaySun0; hide IsDate;
    WeekdayFormula(d);
  }

  /** No two holidays lie within three days of each other. */
  lemma HolidaysAreApart(d: SessionDate)
    requires IsDate(d) && IsNseHoliday(d)
    ensures NextCalendarDay(d) == d + 1 && NextCalendarDay(d + 1) == d + 2 && NextCalendarDay(d + 2) == d + 3
    ensures !IsNseHoliday(d + 1) && !IsNseHoliday(d + 2) && !IsNseHoliday(d + 3)
  {
    hide NextCalendarDay; hide IsDate;
    var m := if d < 20260200 then 1 else if d < 20260400 then 3 else if d < 20260500 then 4 else if d < 20260600 then 5
             else if d < 20260900 then 8 else if d < 20261100 then 10 else if d < 20261200 then 11 else 12;
    RunWithinMonth(d, 2026, m, d - 20260000 - m * 100);
  }

  lemma RunWithinMonth(d: SessionDate, y: int, m: int, k: int)
    requires y >= 1 && 1 <= m <= 12 && 1 <= k && k + 3 <= DaysInMonth(y, m) && d == FromParts(y, m, k)
    ensures IsDate(d) && IsDate(d + 1) && IsDate(d + 2)
    ensures NextCalendarDay(d) == d + 1 && NextCalendarDay(d + 1) == d + 2 && NextCalendarDay(d + 2) == d + 3
  {
    hide NextCalendarDay; hide IsDate;
    NextWithinMonth(d, y, m, k);
    NextWithinMonth(d + 1, y, m, k + 1);
    NextWithinMonth(d + 2, y, m, k + 2);
  }

  lemma NextWithinMonth(d: SessionDate, y: int, m: int, k: int)
    requires y >= 1 && 1 <= m <= 12 && 1 <= k < DaysInMonth(y, m) && d == FromParts(y, m, k)
    ensures IsDate(d) && IsDate(d + 1) && NextCalendarDay(d) == d + 1
  {
    hide Leap; hide Year; hide Month; hide Day;
    MakesDate(y, m, k);
    MakesDate(y, m, k + 1);
    PartsOf(y, m, k);
  }

  /** Of four consecutive weekdays, at most two fall on a weekend, and those are adjacent. */
  lemma FourWeekdays(w0: int, w1: int, w2: int, w3: int)
    requires 0 <= w0 < 7 && w1 == (w0 + 1) % 7 && w2 == (w1 + 1) % 7 && w3 == (w2 + 1) % 7
    ensures var off := (w: int) => w == 0 || w == 6;
      !(off(w0) && off(w2)) && !(off(w0) && off(w3)) && !(off(w1) && off(w3)) && !(off(w0) && off(w1) && off(w2))
  {}

  /** Of any four consecutive dates at least one is a session. */
  lemma SessionWithinFour(d: SessionDate, a: SessionDate, b: SessionDate, c: SessionDate)
    requires IsDate(d) && a == NextCalendarDay(d) && b == NextCalendarDay(a) && c == NextCalendarDay(b)
    ensures IsSession(d) || IsSession(a) || IsSession(b) || IsSession(c)
  {
    hide NextCalendarDay; hide WeekdaySun0; hide IsNseHoliday; hide IsDate;
    WeekdayOfNext(d); WeekdayOfNext(a); WeekdayOfNext(b);
    WeekdayRange(d);
    FourWeekdays(WeekdaySun0(d), WeekdaySun0(a), WeekdaySun0(b), WeekdaySun0(c));
    if IsNseHoliday(d) { HolidaysAreApart(d); }
    else if IsNseHoliday(a) { HolidaysAreApart(a); }
    else if IsNseHoliday(b) { HolidaysAreApart(b); }
  }

  lemma WeekdayRange(d: SessionDate)
    requires IsDate(d)
    ensures 0 <= WeekdaySun0(d) < 7
  {}

  // ---------------------------------------------------------------- session search

  /** No session day lies strictly between a and b. */
  ghost predicate NoSessionBetween(a: SessionDate, b: SessionDate) {
    forall e :: a < e < b ==> !IsSession(e)
  }

  lemma PrevHasRoom(d: SessionDate, n: int)
    requires IsDate(d) && DayNumber(d) >= n >= 2
    ensures d > 10101 && DayNumber(PrevCalendarDay(d)) >= n - 1
  {
    assert DayNumber(10101) == 1;
    OrderIsDayOrder(10101, d);
    PrevSubtractsOneDay(d);
  }

  lemma EpochHasRoom(d: SessionDate)
    requires IsDate(d) && d >= EPOCH
    ensures DayNumber(d) >= 5
  {
    EpochDay();
    hide DayNumber; hide IsDate;
    OrderIsDayOrder(EPOCH, d);
  }

  /** The greatest session day before d, found within four steps. */
  function PrevSession(d: SessionDate): (r: SessionDate)
    requires IsDate(d) && d >= EPOCH
  {
    EpochHasRoom(d);
    PrevHasRoom(d, 5);
    var a := PrevCalendarDay(d);
    if IsSession(a) then a else
    PrevHasRoom(a, 4);
    var b := PrevCalendarDay(a);
    if IsSession(b) then b else
    PrevHasRoom(b, 3);
    var c := PrevCalendarDay(b);
    if IsSession(c) then c else
    PrevHasRoom(c, 2);
    PrevCalendarDay(c)
  }

  /** The least session day after d, found within four steps. */
  function NextSession(d: SessionDate): (r: SessionDate)
    requires IsDate(d)
  {
    var a := NextCalendarDay(d);
    if IsSession(a) then a else
    var b := NextCalendarDay(a);
    if IsSession(b) then b else
    var c := NextCalendarDay(b);
    if IsSession(c) then c else NextCalendarDay(c)
  }

  lemma PrevIsAdjacent(d: SessionDate)
    requires IsDate(d) && d > 10101
    ensures PrevCalendarDay(d) < d
    ensures forall e :: PrevCalendarDay(d) < e && IsDate(e) ==> e >= d
  {
    hide *;
    var p := PrevCalendarDay(d);
    NextPrevInverse(d);
    NothingBetween(p, p);
    forall e | p < e && IsDate(e) ensures e >= d { NothingBetween(p, e); }
  }

  lemma NextIsAdjacent(d: SessionDate)
    requires IsDate(d)
    ensures NextCalendarDay(d) > d
    ensures forall e :: d < e && IsDate(e) ==> e >= NextCalendarDay(d)
  {
    hide *;
    NothingBetween(d, d);
    forall e | d < e && IsDate(e) ensures e >= NextCalendarDay(d) { NothingBetween(d, e); }
  }

  lemma SessionIsDate(d: SessionDate)
    ensures IsSession(d) ==> IsDate(d)
  {}

  lemma PrevSessionIsGreatest(d: SessionDate)
    requires IsDate(d) && d >= EPOCH
    ensures IsSession(PrevSession(d)) && PrevSession(d) < d && NoSessionBetween(PrevSession(d), d)
  {
    hide IsSession; hide NextCalendarDay; hide PrevCalendarDay; hide IsDate; hide DayNumber;
    EpochHasRoom(d);
    PrevHasRoom(d, 5);
    var a := PrevCalendarDay(d);
    PrevHasRoom(a, 4);
    var b := PrevCalendarDay(a);
    PrevHasRoom(b, 3);
    var c := PrevCalendarDay(b);
    PrevHasRoom(c, 2);
    var z := PrevCalendarDay(c);
    NextPrevInverse(a); NextPrevInverse(b); NextPrevInverse(c);
    SessionWithinFour(z, c, b, a);
    PrevIsAdjacent(d); PrevIsAdjacent(a); PrevIsAdjacent(b); PrevIsAdjacent(c);
    forall e | PrevSession(d) < e < d ensures !IsSession(e) { SessionIsDate(e); }
  }

  lemma NextSessionIsLeast(d: SessionDate)
    requires IsDate(d)
    ensures IsSession(NextSession(d)) && NextSession(d) > d && NoSessionBetween(d, NextSession(d))
  {
    hide IsSession; hide NextCalendarDay; hide IsDate;
    var a := NextCalendarDay(d); var b := NextCalendarDay(a); var c := NextCalendarDay(b); var z := NextCalendarDay(c);
    SessionWithinFour(a, b, c, z);
    NextIsAdjacent(d); NextIsAdjacent(a); NextIsAdjacent(b); NextIsAdjacent(c);
    forall e | d < e < NextSession(d) ensures !IsSession(e) { SessionIsDate(e); }
  }

  // ---------------------------------------------------------------- loops of the calendar header

  method PrevSessionDay(date: SessionDate) returns (d: SessionDate)
    requires IsDate(date) && date >= EPOCH
    ensures d == PrevSession(date)
  {
    hide PrevSession; hide PrevCalendarDay; hide IsSession; hide IsDate; hide DayNumber;
    PrevSessionIsGreatest(date);
    SessionIsDate(PrevSession(date));
    EpochHasRoom(date);
    PrevHasRoom(date, 5);
    PrevIsAdjacent(date);
    d := PrevCalendarDay(date);
    while !IsSession(d)
      invariant IsDate(d) && PrevSession(date) <= d < date
      decreases d
    {
      FirstDate(PrevSession(date));
      PrevIsAdjacent(d);
      d := PrevCalendarDay(d);
    }
  }

  method NextSessionDay(date: SessionDate) returns (d: SessionDate)
    requires IsDate(date)
    ensures d == NextSession(date)
  {
    hide NextSession; hide NextCalendarDay; hide IsSession; hide IsDate;
    NextSessionIsLeast(date);
    d := NextCalendarDay(date);
    NextIsAdjacent(date);
    SessionIsDate(NextSession(date));
    while !IsSession(d)
      invariant IsDate(d) && date < d <= NextSession(date)
      decreases NextSession(date) - d
    {
      NextIsAdjacent(d);
      d := NextCalendarDay(d);
    }
  }

  /** The greatest session day strictly before today: the last one whose trading is over. */
  method LastClosedSession(today: SessionDate) returns (d: SessionDate)
    requires IsDate(today) && today >= EPOCH
    ensures d == PrevSession(today)
  {
    hide PrevSession; hide PrevCalendarDay; hide IsSession; hide IsDate;
    if IsSession(today) {
      d := PrevSessionDay(today);
      return;
    }
    PrevSessionIsGreatest(today);
    SessionIsDate(PrevSession(today));
    d := today;
    while !IsSession(d)
      invariant IsDate(d) && PrevSession(today) <= d <= today
      decreases d
    {
      FirstDate(PrevSession(today));
      PrevIsAdjacent(d);
      d := PrevCalendarDay(d);
    }
  }

  /** The session days of [lo, hi], ascending. */
  ghost function SessionList(lo: SessionDate, hi: SessionDate): seq<SessionDate>
    requires IsDate(lo)
    decreases hi - lo
  {
    if lo > hi then []
    else
    NothingBetween(lo, lo);
    (if IsSession(lo) then [lo] else []) + SessionList(NextCalendarDay(lo), hi)
  }

  /** SessionList is exactly the session days of the interval, once each and in order. */
  lemma {:induction false} SessionListIsExact(lo: SessionDate, hi: SessionDate)
    requires IsDate(lo)
    ensures Increasing(SessionList(lo, hi))
    ensures forall d :: d in SessionList(lo, hi) <==> lo <= d <= hi && IsSession(d)
    decreases hi - lo
  {
    hide NextCalendarDay; hide IsSession; hide IsDate; hide Increasing;
    if lo <= hi {
      var n := NextCalendarDay(lo);
      NothingBetween(lo, lo);
      SessionListIsExact(n, hi);
      var rest := SessionList(n, hi);
      NextIsAdjacent(lo);
      forall d ensures d in SessionList(lo, hi) <==> lo <= d <= hi && IsSession(d) {
        SessionIsDate(d);
        assert d in SessionList(lo, hi) <==> (IsSession(lo) && d == lo) || d in rest;
      }
      ConsIncreasing(lo, rest);
      assert [] + rest == rest;
    } else {
      NothingIncreasing();
    }
  }

  method SessionDays(lo: SessionDate, hi: SessionDate) returns (out: seq<SessionDate>)
    requires IsDate(lo)
    ensures out == SessionList(lo, hi)
  {
    hide IsSession; hide NextCalendarDay; hide IsDate;
    out := [];
    var d := lo;
    while d <= hi
      invariant IsDate(d)
      invariant out + SessionList(d, hi) == SessionList(lo, hi)
      decreases hi - d
    {
      ghost var tail := if IsSession(d) then [d] else [];
      assert out + (tail + SessionList(NextCalendarDay(d), hi)) == (out + tail) + SessionList(NextCalendarDay(d), hi);
      if IsSession(d) {
        out := out + [d];
      }
      NothingBetween(d, d);
      d := NextCalendarDay(d);
    }
  }

  // ---------------------------------------------------------------- timestamps

  /** The date n days after 1970-01-01. */
  function DateOfDay(n: nat): (d: SessionDate)
    ensures IsDate(d) && d >= EPOCH
  {
    EpochDay();
    if n == 0 then EPOCH
    else
      NothingBetween(DateOfDay(n - 1), DateOfDay(n - 1));
      NextCalendarDay(DateOfDay(n - 1))
  }

  lemma {:induction false} DayOfDate(n: nat)
    ensures DayNumber(DateOfDay(n)) == EPOCH_DAY + n
  {
    hide NextCalendarDay; hide DayNumber; hide IsDate;
    EpochDay();
    if n > 0 {
      DayOfDate(n - 1);
      NextAddsOneDay(DateOfDay(n - 1));
    }
  }

  lemma EpochDay()
    ensures IsDate(EPOCH) && DayNumber(EPOCH) == EPOCH_DAY
  {
    hide Year; hide Month; hide Day; hide IsDate;
    assert EPOCH == FromParts(1970, 1, 1);
    MakesDate(1970, 1, 1);
  }

  /** The IST calendar date of a timestamp. */
  function FromIst(ts: Timestamp): SessionDate {
    DateOfDay((ts / 1_000_000_000 + 19_800) / 86_400)
  }

  /** The instant of hour:minute IST on the given date, in nanoseconds. */
  function IstHm(d: SessionDate, hour: int, minute: int): int
    requires IsDate(d)
  {
    ((DayNumber(d) - EPOCH_DAY) * 86_400 + hour * 3_600 + minute * 60 - 19_800) * 1_000_000_000
  }

  /** A timestamp falls before a date exactly when it precedes that date's IST midnight. */
  lemma IstOrder(ts: Timestamp, d: SessionDate)
    requires IsDate(d)
    ensures IsDate(FromIst(ts)) && FromIst(ts) >= EPOCH
    ensures FromIst(ts) < d <==> ts < IstHm(d, 0, 0)
    ensures FromIst(ts) <= d <==> ts < IstHm(d, 24, 0)
  {
    var k := (ts / 1_000_000_000 + 19_800) / 86_400;
    DayOfDate(k);
    OrderIsDayOrder(FromIst(ts), d);
    SecondsOrder(ts, DayNumber(d) - EPOCH_DAY);
    SecondsOrder(ts, DayNumber(d) - EPOCH_DAY + 1);
  }

  /** Days advance with the IST clock, 330 minutes ahead of UTC; day 719163 is 1970-01-01. */
  lemma IstDate(ts: Timestamp)
    ensures IsDate(FromIst(ts)) && DayNumber(FromIst(ts)) == 719_163 + (ts / 60_000_000_000 + 330) / 1440
  {
    var s := ts / 1_000_000_000;
    DayOfDate((s + 19_800) / 86_400);
    assert ts / 60_000_000_000 == s / 60;
    assert (s + 19_800) / 86_400 == (s / 60 + 330) / 1440;
    hide DateOfDay; hide DayNumber; hide IsDate;
  }

  lemma SecondsOrder(ts: nat, n: int)
    ensures (ts / 1_000_000_000 + 19_800) / 86_400 < n <==> ts < (n * 86_400 - 19_800) * 1_000_000_000
  {}
}
