/** The month calendar: the 42-cell grid of days, the bookings that fall on
    one day, month navigation and the status colours
    (src/components/bookings/BookingCalendar.tsx). */
module BookingCalendar {
  import opened Js
  import opened Seqs
  import opened Platform
  import opened BookingModel

  /** Six weeks of seven days. */
  const CELLS: nat := 42

  // ---------------------------------------------------------------------
  // The Gregorian calendar

  predicate IsLeapYear(y: int) {
    (y % 4 == 0 && y % 100 != 0) || y % 400 == 0
  }

  /** The number of days in month `m` (0 = January) of year `y`. */
  function MonthLength(y: int, m: int): (n: int)
    requires 0 <= m < 12
    ensures 28 <= n <= 31
  {
    if m == 1 then (if IsLeapYear(y) then 29 else 28)
    else if m == 3 || m == 5 || m == 8 || m == 10 then 30
    else 31
  }

  predicate ValidDate(d: CalDate) {
    0 <= d.month < 12 && 1 <= d.day <= MonthLength(d.year, d.month)
  }

  /** The number of days from 0000-03-01 to March 1st of year `y`, counted
      in 400-year eras of 146097 days. */
  function MarchDays(y: int): int {
    var era := y / 400;
    var yearOfEra := y - era * 400;
    era * 146097 + yearOfEra * 365 + yearOfEra / 4 - yearOfEra / 100
  }

  /** One more year of an era adds a leap day exactly when the new year of
      the era is a multiple of 4 but not of 100. */
  lemma YearOfEraStep(n: int)
    requires 0 <= n < 399
    ensures (n + 1) / 4 - n / 4 == if (n + 1) % 4 == 0 then 1 else 0
    ensures (n + 1) / 100 - n / 100 == if (n + 1) % 100 == 0 then 1 else 0
  {
  }

  /** Quotient and remainder by 4, 100 and 400 are the unique ones. */
  lemma DivMod4(a: int, q: int, r: int)
    requires a == q * 4 + r && 0 <= r < 4
    ensures a % 4 == r
  {
  }

  lemma DivMod100(a: int, q: int, r: int)
    requires a == q * 100 + r && 0 <= r < 100
    ensures a % 100 == r
  {
  }

  lemma DivMod400(a: int, q: int, r: int)
    requires a == q * 400 + r && 0 <= r < 400
    ensures a / 400 == q && a % 400 == r
  {
  }

  lemma DivModByYears(a: int, q4: int, q100: int, q400: int, r4: int, r100: int, r400: int)
    requires a == q4 * 4 + r4 && 0 <= r4 < 4
    requires a == q100 * 100 + r100 && 0 <= r100 < 100
    requires a == q400 * 400 + r400 && 0 <= r400 < 400
    ensures a % 4 == r4 && a % 100 == r100 && a / 400 == q400 && a % 400 == r400
  {
    DivMod4(a, q4, r4);
    DivMod100(a, q100, r100);
    DivMod400(a, q400, r400);
  }

  /** Within an era, one more year adds 366 days exactly for a leap year. */
  lemma MarchDaysStepInEra(y: int, era: int, n: int)
    requires y == era * 400 + n && 0 <= n < 399
    ensures MarchDays(y + 1) == MarchDays(y) + 365 + (if IsLeapYear(y + 1) then 1 else 0)
  {
    var m := n + 1;
    DivModByYears(y, era * 100 + n / 4, era * 4 + n / 100, era, n % 4, n % 100, n);
    DivModByYears(y + 1, era * 100 + m / 4, era * 4 + m / 100, era, m % 4, m % 100, m);
    YearOfEraStep(n);
  }

  /** The last year of an era is followed by a leap year at the start of
      the next era. */
  lemma MarchDaysStepNewEra(y: int, era: int)
    requires y == era * 400 + 399
    ensures MarchDays(y + 1) == MarchDays(y) + 366 && IsLeapYear(y + 1)
  {
    DivModByYears(y, era * 100 + 99, era * 4 + 3, era, 3, 99, 399);
    DivModByYears(y + 1, era * 100 + 100, era * 4 + 4, era + 1, 0, 0, 0);
  }

  /** From one March 1st to the next there are 365 days, and 366 when the
      February in between has a 29th. */
  lemma MarchDaysStep(y: int)
    ensures MarchDays(y + 1) == MarchDays(y) + 365 + (if IsLeapYear(y + 1) then 1 else 0)
  {
    var era := y / 400;
    var n := y % 400;
    if n < 399 {
      MarchDaysStepInEra(y, era, n);
    } else {
      MarchDaysStepNewEra(y, era);
    }
  }

  /** Months counted from March: March is 0 and February 11. */
  function Shifted(m: int): int {
    if m < 2 then m + 10 else m - 2
  }

  /** The days from March 1st to the first of the shifted month. */
  function MonthStart(shifted: int): int {
    (153 * shifted + 2) / 5
  }

  /** Within one March-to-February year, the next month starts a month's
      length later; only February's length depends on the year. */
  lemma MonthStartStep(y: int, m: int)
    requires 0 <= m < 11 && m != 1
    ensures MonthStart(Shifted(m + 1)) == MonthStart(Shifted(m)) + MonthLength(y, m)
  {
    if m == 0 {
      assert MonthStart(10) == 306 && MonthStart(11) == 337;
    } else if m == 2 {
      assert MonthStart(0) == 0 && MonthStart(1) == 31;
    } else if m == 3 {
      assert MonthStart(1) == 31 && MonthStart(2) == 61;
    } else if m == 4 {
      assert MonthStart(2) == 61 && MonthStart(3) == 92;
    } else if m == 5 {
      assert MonthStart(3) == 92 && MonthStart(4) == 122;
    } else if m == 6 {
      assert MonthStart(4) == 122 && MonthStart(5) == 153;
    } else if m == 7 {
      assert MonthStart(5) == 153 && MonthStart(6) == 184;
    } else if m == 8 {
      assert MonthStart(6) == 184 && MonthStart(7) == 214;
    } else if m == 9 {
      assert MonthStart(7) == 214 && MonthStart(8) == 245;
    } else {
      assert MonthStart(8) == 245 && MonthStart(9) == 275;
    }
  }

  /** The number of days from 1970-01-01 to the given date. */
  function DaysFromEpoch(d: CalDate): int {
    var y := if d.month < 2 then d.year - 1 else d.year;
    MarchDays(y) + MonthStart(Shifted(d.month)) + d.day - 1 - 719468
  }

  /** The day count advances by exactly one from a date to the next. */
  lemma DaysFromEpochStep(d: CalDate)
    requires ValidDate(d)
    ensures DaysFromEpoch(NextDay(d)) == DaysFromEpoch(d) + 1
  {
    var len := MonthLength(d.year, d.month);
    if d.day == len {
      if d.month == 1 {
        MarchDaysStep(d.year - 1);
        assert MonthStart(11) == 337 && MonthStart(0) == 0;
      } else if d.month == 11 {
        assert MonthStart(9) == 275 && MonthStart(10) == 306;
      } else {
        MonthStartStep(d.year, d.month);
      }
    }
  }

  /** The weekday of the day `n` days after 1970-01-01, a Thursday. */
  function WeekdayOfCount(n: int): (w: int)
    ensures 0 <= w < 7
  {
    (n + 4) % 7
  }

  /** One day later is one weekday later, mod 7. */
  lemma WeekdayOfCountStep(n: int)
    ensures WeekdayOfCount(n + 1) == (WeekdayOfCount(n) + 1) % 7
  {
    assert n + 4 == ((n + 4) / 7) * 7 + WeekdayOfCount(n);
    assert n + 5 == ((n + 4) / 7) * 7 + (WeekdayOfCount(n) + 1);
  }

  /** `getDay()`: 0 for Sunday up to 6 for Saturday. */
  function Weekday(d: CalDate): (w: int)
    ensures 0 <= w < 7
  {
    WeekdayOfCount(DaysFromEpoch(d))
  }

  /** 1970-01-01 is day 0 of the count. */
  lemma EpochIsDayZero()
    ensures DaysFromEpoch(CalDate(1970, 0, 1)) == 0
  {
    assert 1969 / 400 == 4 && 369 / 4 == 92 && 369 / 100 == 3;
    assert MarchDays(1969) == 719162 && MonthStart(10) == 306;
  }

  /** 1970-01-01 was a Thursday, and each day's weekday follows the one
      before it, so Weekday is getDay for every date. */
  lemma WeekdayIsGetDay(d: CalDate)
    requires ValidDate(d)
    ensures Weekday(CalDate(1970, 0, 1)) == 4
    ensures Weekday(NextDay(d)) == (Weekday(d) + 1) % 7
  {
    EpochIsDayZero();
    DaysFromEpochStep(d);
    WeekdayOfCountStep(DaysFromEpoch(d));
  }

  /** The calendar day after a valid date. */
  function NextDay(d: CalDate): CalDate
    requires ValidDate(d)
  {
    if d.day < MonthLength(d.year, d.month) then CalDate(d.year, d.month, d.day + 1)
    else if d.month < 11 then CalDate(d.year, d.month + 1, 1)
    else CalDate(d.year + 1, 0, 1)
  }

  // ---------------------------------------------------------------------
  // The month shown

  /** The year and month of `currentDate`. */
  datatype MonthView = MonthView(year: int, month: int)

  predicate ValidView(v: MonthView) {
    0 <= v.month < 12
  }

  /** Months counted from January of year 0, so that navigation is +1/-1. */
  function MonthIndex(v: MonthView): int {
    v.year * 12 + v.month
  }

  function PrevMonth(v: MonthView): (r: MonthView)
    requires ValidView(v)
    ensures ValidView(r) && MonthIndex(r) == MonthIndex(v) - 1
  {
    if v.month == 0 then MonthView(v.year - 1, 11) else MonthView(v.year, v.month - 1)
  }

  function NextMonth(v: MonthView): (r: MonthView)
    requires ValidView(v)
    ensures ValidView(r) && MonthIndex(r) == MonthIndex(v) + 1
  {
    if v.month == 11 then MonthView(v.year + 1, 0) else MonthView(v.year, v.month + 1)
  }

  /** Two valid views with the same month index are the same view. */
  lemma MonthIndexInjective(v: MonthView, w: MonthView)
    requires ValidView(v) && ValidView(w) && MonthIndex(v) == MonthIndex(w)
    ensures v == w
  {
  }

  /** Going forward and back again, in either order, returns to the view. */
  lemma NavigationRoundTrip(v: MonthView)
    requires ValidView(v)
    ensures PrevMonth(NextMonth(v)) == v && NextMonth(PrevMonth(v)) == v
  {
    MonthIndexInjective(PrevMonth(NextMonth(v)), v);
    MonthIndexInjective(NextMonth(PrevMonth(v)), v);
  }

  // ---------------------------------------------------------------------
  // The grid

  /** How many days of the previous month pad the first week. */
  function LeadingCount(v: MonthView): (n: int)
    requires ValidView(v)
    ensures 0 <= n < 7
  {
    Weekday(CalDate(v.year, v.month, 1))
  }

  /** The day shown in cell `k`, described segment by segment: the last
      LeadingCount days of the previous month, then every day of the month,
      then the first days of the next month. */
  function GridCell(v: MonthView, k: int): CalDate
    requires ValidView(v) && 0 <= k < CELLS
  {
    var lead := LeadingCount(v);
    var len := MonthLength(v.year, v.month);
    var prev := PrevMonth(v);
    var next := NextMonth(v);
    if k < lead then CalDate(prev.year, prev.month, MonthLength(prev.year, prev.month) - lead + 1 + k)
    else if k < lead + len then CalDate(v.year, v.month, k - lead + 1)
    else CalDate(next.year, next.month, k - lead - len + 1)
  }

  /** daysInMonth: three loops push the previous month's tail, the month and
      as many of the next month's days as make 42. */
  method DaysInMonth(v: MonthView) returns (days: seq<CalDate>)
    requires ValidView(v)
    ensures |days| == CELLS
    ensures forall k :: 0 <= k < CELLS ==> days[k] == GridCell(v, k)
  {
    var year := v.year;
    var month := v.month;
    var lastDay := MonthLength(year, month);
    var prev := PrevMonth(v);
    var prevMonthLastDay := MonthLength(prev.year, prev.month);
    var firstDayOfWeek := Weekday(CalDate(year, month, 1));
    days := [];

    var i := firstDayOfWeek - 1;
    while i >= 0
      invariant -1 <= i < firstDayOfWeek
      invariant |days| == firstDayOfWeek - 1 - i
      invariant forall k :: 0 <= k < |days| ==> days[k] == GridCell(v, k)
    {
      days := days + [CalDate(prev.year, prev.month, prevMonthLastDay - i)];
      i := i - 1;
    }

    i := 1;
    while i <= lastDay
      invariant 1 <= i <= lastDay + 1
      invariant |days| == firstDayOfWeek + i - 1
      invariant forall k :: 0 <= k < |days| ==> days[k] == GridCell(v, k)
    {
      days := days + [CalDate(year, month, i)];
      i := i + 1;
    }

    var next := NextMonth(v);
    var daysNeeded := CELLS - |days|;
    i := 1;
    while i <= daysNeeded
      invariant 1 <= i <= daysNeeded + 1
      invariant |days| == firstDayOfWeek + lastDay + i - 1
      invariant forall k :: 0 <= k < |days| ==> days[k] == GridCell(v, k)
    {
      days := days + [CalDate(next.year, next.month, i)];
      i := i + 1;
    }
  }

  /** Every cell holds a real date: the previous month's tail and the
      month's own days by construction, and at most 28 days of the next
      month. */
  lemma CellIsDate(v: MonthView, k: int)
    requires ValidView(v) && 0 <= k < CELLS
    ensures ValidDate(GridCell(v, k))
  {
    var lead := LeadingCount(v);
    var len := MonthLength(v.year, v.month);
    if k >= lead + len {
      var next := NextMonth(v);
      assert k - lead - len + 1 <= 28 <= MonthLength(next.year, next.month);
    }
  }

  /** Cell k + 1 holds the day after cell k, also across both month
      boundaries. */
  lemma CellStep(v: MonthView, k: int)
    requires ValidView(v) && 0 <= k < CELLS - 1
    ensures ValidDate(GridCell(v, k)) && NextDay(GridCell(v, k)) == GridCell(v, k + 1)
  {
    CellIsDate(v, k);
    var lead := LeadingCount(v);
    var len := MonthLength(v.year, v.month);
    if k == lead - 1 {
      var prev := PrevMonth(v);
      assert GridCell(v, k) == CalDate(prev.year, prev.month, MonthLength(prev.year, prev.month));
      if v.month == 0 {
        assert prev == MonthView(v.year - 1, 11);
      }
    } else if k == lead + len - 1 {
      assert GridCell(v, k) == CalDate(v.year, v.month, len);
    } else if k >= lead + len {
      var next := NextMonth(v);
      assert k - lead - len + 1 < 28 <= MonthLength(next.year, next.month);
    }
  }

  /** A weekday and its successor mod 7 determine each other. */
  lemma ModSevenStep(w: int, k: int)
    requires 0 <= w < 7 && k >= 0
    ensures w == k % 7 <==> (w + 1) % 7 == (k + 1) % 7
  {
    assert k == (k / 7) * 7 + k % 7;
    assert k + 1 == (k / 7) * 7 + (k % 7 + 1);
  }

  /** The first of the month sits in the column of its weekday. */
  lemma FirstCellColumn(v: MonthView)
    requires ValidView(v)
    ensures Weekday(GridCell(v, LeadingCount(v))) == LeadingCount(v) % 7
  {
    assert GridCell(v, LeadingCount(v)) == CalDate(v.year, v.month, 1);
  }

  /** From the first of the month on, cell k falls on weekday k mod 7. */
  lemma {:induction false} ColumnsFromFirst(v: MonthView, k: int)
    requires ValidView(v) && LeadingCount(v) <= k < CELLS
    ensures Weekday(GridCell(v, k)) == k % 7
    decreases k
  {
    if k == LeadingCount(v) {
      FirstCellColumn(v);
    } else {
      ColumnsFromFirst(v, k - 1);
      CellStep(v, k - 1);
      var c := GridCell(v, k - 1);
      WeekdayIsGetDay(c);
      ModSevenStep(Weekday(c), k - 1);
    }
  }

  /** Before the first of the month, cell k falls on weekday k mod 7 too. */
  lemma {:induction false} ColumnsBeforeFirst(v: MonthView, k: int)
    requires ValidView(v) && 0 <= k <= LeadingCount(v)
    ensures Weekday(GridCell(v, k)) == k % 7
    decreases LeadingCount(v) - k
  {
    if k == LeadingCount(v) {
      FirstCellColumn(v);
    } else {
      ColumnsBeforeFirst(v, k + 1);
      CellStep(v, k);
      var c := GridCell(v, k);
      WeekdayIsGetDay(c);
      ModSevenStep(Weekday(c), k);
    }
  }

  /** Cell k shows a day whose weekday is k % 7: the grid's columns are the
      weeks' Sunday to Saturday, before and after the first of the month. */
  lemma GridColumnIsWeekday(v: MonthView, k: int)
    requires ValidView(v) && 0 <= k < CELLS
    ensures Weekday(GridCell(v, k)) == k % 7
  {
    if k >= LeadingCount(v) {
      ColumnsFromFirst(v, k);
    } else {
      ColumnsBeforeFirst(v, k);
    }
  }

  /** Every cell is a real date, the cells run through consecutive days, the
      month itself occupies cells LeadingCount .. LeadingCount + length - 1
      in order, and fewer than a week of the previous month is shown. */
  lemma {:induction false} GridIsConsecutive(v: MonthView)
    requires ValidView(v)
    ensures forall k :: 0 <= k < CELLS ==> ValidDate(GridCell(v, k))
    ensures forall k :: 0 <= k < CELLS - 1 ==> NextDay(GridCell(v, k)) == GridCell(v, k + 1)
    ensures forall d :: 1 <= d <= MonthLength(v.year, v.month) ==>
      GridCell(v, LeadingCount(v) + d - 1) == CalDate(v.year, v.month, d)
    ensures LeadingCount(v) < 7
  {
    forall k | 0 <= k < CELLS
      ensures ValidDate(GridCell(v, k))
    {
      CellIsDate(v, k);
    }
    forall k | 0 <= k < CELLS - 1
      ensures NextDay(GridCell(v, k)) == GridCell(v, k + 1)
    {
      CellStep(v, k);
    }
  }

  // ---------------------------------------------------------------------
  // Bookings of one day

  /** The booking's date, read as it is everywhere else, falls on `day` in
      local time (`toDateString` equality). */
  predicate OnDate(b: Booking, day: CalDate, slotTimes: map<string, string>, host: Host) {
    var instant := BookingInstant(b, slotTimes, host);
    instant.Some? && host.localDate(instant.value) == day
  }

  function OnDateTest(day: CalDate, slotTimes: map<string, string>, host: Host): Booking -> bool {
    (b: Booking) => OnDate(b, day, slotTimes, host)
  }

  /** getBookingsForDate: a sub-multiset of the bookings, holding just
      those on the day. */
  function BookingsForDate(bookings: seq<Booking>, day: CalDate, slotTimes: map<string, string>, host: Host): (r: seq<Booking>)
    ensures multiset(r) <= multiset(bookings)
    ensures forall b :: b in r <==> b in bookings && OnDate(b, day, slotTimes, host)
  {
    FilterSubMultiset(bookings, OnDateTest(day, slotTimes, host));
    Filter(bookings, OnDateTest(day, slotTimes, host))
  }

  /** A booking with no start time, bookedAt, createdAt or updatedAt is on
      no day; any other booking is on the day its date falls on and on no
      other. */
  lemma {:induction false} BookingOnOneDayAtMost(bookings: seq<Booking>, b: Booking, d1: CalDate, d2: CalDate,
                                             slotTimes: map<string, string>, host: Host)
    requires b in bookings
    ensures DateSource(b, slotTimes) == "" ==> b !in BookingsForDate(bookings, d1, slotTimes, host)
    ensures b in BookingsForDate(bookings, d1, slotTimes, host) && b in BookingsForDate(bookings, d2, slotTimes, host) ==> d1 == d2
    ensures BookingInstant(b, slotTimes, host).Some? ==>
      b in BookingsForDate(bookings, host.localDate(BookingInstant(b, slotTimes, host).value), slotTimes, host)
  {
    assert OnDateTest(d1, slotTimes, host)(b) == OnDate(b, d1, slotTimes, host);
    assert OnDateTest(d2, slotTimes, host)(b) == OnDate(b, d2, slotTimes, host);
  }

  /** The day's list keeps each booking of that day as often as it occurs,
      in order, and splits over concatenation. */
  lemma {:induction false} BookingsForDateCounts(bookings: seq<Booking>, more: seq<Booking>, day: CalDate,
                                             slotTimes: map<string, string>, host: Host, b: Booking)
    ensures multiset(BookingsForDate(bookings, day, slotTimes, host))[b] ==
      if OnDate(b, day, slotTimes, host) then multiset(bookings)[b] else 0
    ensures BookingsForDate(bookings + more, day, slotTimes, host) ==
      BookingsForDate(bookings, day, slotTimes, host) + BookingsForDate(more, day, slotTimes, host)
  {
    FilterMultiplicity(bookings, OnDateTest(day, slotTimes, host), b);
    FilterConcat(bookings, more, OnDateTest(day, slotTimes, host));
  }

  // ---------------------------------------------------------------------
  // Status colours

  /** getStatusColor */
  function StatusColor(status: string): (r: string)
    ensures status == CONFIRMED ==> r == "bg-green-100 text-green-800 hover:bg-green-100"
    ensures status == CANCELLED ==> r == "bg-red-100 text-red-800 hover:bg-red-100"
    ensures status == COMPLETED ==> r == "bg-gray-100 text-gray-800 hover:bg-gray-100"
    ensures status !in {CONFIRMED, CANCELLED, COMPLETED} ==> r == "bg-yellow-100 text-yellow-800 hover:bg-yellow-100"
  {
    if status == CONFIRMED then "bg-green-100 text-green-800 hover:bg-green-100"
    else if status == CANCELLED then "bg-red-100 text-red-800 hover:bg-red-100"
    else if status == COMPLETED then "bg-gray-100 text-gray-800 hover:bg-gray-100"
    else "bg-yellow-100 text-yellow-800 hover:bg-yellow-100"
  }

  /** PENDING and RESCHEDULED share the yellow default. */
  lemma PendingAndRescheduledLookAlike()
    ensures StatusColor(PENDING) == StatusColor(RESCHEDULED) == StatusColor("")
    ensures StatusColor(CONFIRMED) != StatusColor(PENDING)
  {
  }

  // ---------------------------------------------------------------------
  // Component state

  /** The month a date is shown in. */
  function ViewOf(d: CalDate): MonthView {
    MonthView(d.year, d.month)
  }

  /** `newDate.setMonth(prev.getMonth() ± 1)`: the day of the month is kept,
      and a day past the end of the target month runs on into the month
      after it, as the Date constructor normalises an overflowing day. */
  function ShiftMonth(d: CalDate, next: bool): (r: CalDate)
    requires ValidDate(d)
    ensures ValidDate(r)
  {
    var t := if next then NextMonth(ViewOf(d)) else PrevMonth(ViewOf(d));
    var len := MonthLength(t.year, t.month);
    if d.day <= len then CalDate(t.year, t.month, d.day)
    else
      var u := NextMonth(t);
      CalDate(u.year, u.month, d.day - len)
  }

  /** On the 28th or earlier the shift moves exactly one month and keeps the
      day, and shifting forward then back returns to the same date. */
  lemma ShiftMonthOnEarlyDays(d: CalDate, next: bool)
    requires ValidDate(d) && d.day <= 28
    ensures ShiftMonth(d, next).day == d.day
    ensures MonthIndex(ViewOf(ShiftMonth(d, next))) == MonthIndex(ViewOf(d)) + (if next then 1 else -1)
    ensures ShiftMonth(ShiftMonth(d, true), false) == d && ShiftMonth(ShiftMonth(d, false), true) == d
  {
    NavigationRoundTrip(ViewOf(d));
  }

  /** Whatever the day, the shown month moves by one, or, when the day
      overflows, lands one month past the target: forward by two, or back
      by none. */
  lemma ShiftMonthOverflow(d: CalDate, next: bool)
    requires ValidDate(d)
    ensures var t := if next then NextMonth(ViewOf(d)) else PrevMonth(ViewOf(d));
      if d.day <= MonthLength(t.year, t.month)
      then ViewOf(ShiftMonth(d, next)) == t && ShiftMonth(d, next).day == d.day
      else MonthIndex(ViewOf(ShiftMonth(d, next))) == MonthIndex(t) + 1 &&
           ShiftMonth(d, next).day == d.day - MonthLength(t.year, t.month) && d.day > 28
  {
  }

  /** From 31 January 2023, "next" skips February and lands on 3 March, and
      "prev" from there gives 3 February: no round trip. From 31 March 2023,
      "prev" stays in March. */
  lemma MonthEndNavigation()
    ensures ShiftMonth(CalDate(2023, 0, 31), true) == CalDate(2023, 2, 3)
    ensures ShiftMonth(CalDate(2023, 2, 3), false) == CalDate(2023, 1, 3)
    ensures ShiftMonth(CalDate(2023, 2, 31), false) == CalDate(2023, 2, 3)
  {
    assert !IsLeapYear(2023);
  }

  /** The calendar's `currentDate`; the month shown is the month of it. */
  class CalendarState {
    var currentDate: CalDate

    constructor(today: CalDate)
      requires ValidDate(today)
      ensures currentDate == today
    {
      currentDate := today;
    }

    function View(): MonthView
      reads this
    {
      ViewOf(currentDate)
    }

    /** navigateMonth: setMonth one month forward for "next", one back
        otherwise, keeping the day of the month. */
    method NavigateMonth(next: bool)
      requires ValidDate(currentDate)
      modifies this
      ensures currentDate == ShiftMonth(old(currentDate), next) && ValidDate(currentDate)
      ensures old(currentDate).day <= 28 ==>
        MonthIndex(View()) == old(MonthIndex(View())) + (if next then 1 else -1)
    {
      if currentDate.day <= 28 {
        ShiftMonthOnEarlyDays(currentDate, next);
      }
      currentDate := ShiftMonth(currentDate, next);
    }

    /** The "Today" button. */
    method GoToToday(today: CalDate)
      requires ValidDate(today)
      modifies this
      ensures currentDate == today && View() == MonthView(today.year, today.month)
    {
      currentDate := today;
    }
  }
}
