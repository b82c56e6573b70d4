/** The upcoming-bookings card: the bookings of the next seven days, the
    countdown label and the urgency colour of each
    (src/components/bookings/UpcomingBookings.tsx). Times are milliseconds
    since the epoch; "now" is a parameter. */
module UpcomingBookings {
  import opened Js
  import opened Seqs
  import opened Platform
  import opened BookingModel

  const HOUR: int := 1000 * 60 * 60
  const DAY: int := 1000 * 60 * 60 * 24
  const WEEK: int := 7 * DAY

  /** The date string this card reads: bookedAt, else date, else slotDate. */
  function UpcomingSource(b: Booking): (r: string)
    ensures r == "" <==> b.bookedAt == "" && b.date == "" && b.slotDate == ""
    ensures b.bookedAt != "" ==> r == b.bookedAt
    ensures b.bookedAt == "" && b.date != "" ==> r == b.date
    ensures b.bookedAt == "" && b.date == "" ==> r == b.slotDate
  {
    OrElse(b.bookedAt, OrElse(b.date, b.slotDate))
  }

  /** The parsed instant of that string; None for an invalid date, and
      `new Date('')` is one whatever the host parses. */
  function UpcomingInstant(b: Booking, host: Host): (r: Option<int>)
    ensures r.Some? <==> UpcomingSource(b) != "" && host.parseDate(UpcomingSource(b)).Some?
    ensures r.Some? ==> r == host.parseDate(UpcomingSource(b))
  {
    var source := UpcomingSource(b);
    if source == "" then None else host.parseDate(source)
  }

  /** Whether the booking lies in [now, now + 7 days]; an invalid date
      compares false both ways and so is never in the window. */
  predicate InWindow(b: Booking, now: int, host: Host) {
    var t := UpcomingInstant(b, host);
    t.Some? && now <= t.value <= now + WEEK
  }

  function InWindowTest(now: int, host: Host): Booking -> bool {
    (b: Booking) => InWindow(b, now, host)
  }

  /** upcomingBookings: a sub-multiset of the bookings, holding just those
      in the window. */
  function Upcoming(bookings: seq<Booking>, now: int, host: Host): (r: seq<Booking>)
    ensures multiset(r) <= multiset(bookings)
    ensures forall b :: b in r <==> b in bookings && InWindow(b, now, host)
  {
    FilterSubMultiset(bookings, InWindowTest(now, host));
    Filter(bookings, InWindowTest(now, host))
  }

  /** Exactly the bookings whose date lies in the closed seven-day window
      are kept, as often as they occur. */
  lemma {:induction false} UpcomingExactly(bookings: seq<Booking>, now: int, host: Host, b: Booking)
    ensures b in Upcoming(bookings, now, host) <==>
      b in bookings && UpcomingInstant(b, host).Some? &&
      now <= UpcomingInstant(b, host).value <= now + WEEK
    ensures multiset(Upcoming(bookings, now, host))[b] ==
      if InWindow(b, now, host) then multiset(bookings)[b] else 0
  {
    assert InWindowTest(now, host)(b) == InWindow(b, now, host);
    FilterMultiplicity(bookings, InWindowTest(now, host), b);
  }

  // ---------------------------------------------------------------------
  // Countdown

  /** The quotient of JavaScript's division truncated toward zero. */
  function TruncQuot(a: int, b: int): int
    requires b > 0
  {
    if a >= 0 then a / b else -((-a) / b)
  }

  /** JavaScript's `a % b` for b > 0: what remains of `a` after taking
      out the truncated quotient's multiple of `b`, with the sign of `a`. */
  function TruncRem(a: int, b: int): (r: int)
    requires b > 0
    ensures a == TruncQuot(a, b) * b + r
    ensures a >= 0 ==> 0 <= r < b
    ensures a < 0 ==> -b < r <= 0
  {
    if a >= 0 then a % b else -((-a) % b)
  }

  /** The whole days and the hours past them that getTimeUntilBooking
      derives from the difference in milliseconds (both floored). */
  datatype Countdown = Countdown(days: int, hours: int)

  function CountdownOf(diff: int): Countdown {
    Countdown(diff / DAY, TruncRem(diff, DAY) / HOUR)
  }

  /** For a booking not in the past, days and hours are the largest whole
      numbers of days and then hours that fit in the difference. */
  lemma {:induction false} CountdownBounds(diff: int)
    requires diff >= 0
    ensures 0 <= CountdownOf(diff).hours < 24
    ensures CountdownOf(diff).days * DAY + CountdownOf(diff).hours * HOUR <= diff
    ensures diff < CountdownOf(diff).days * DAY + (CountdownOf(diff).hours + 1) * HOUR
  {
    var d := diff / DAY;
    var rem := diff % DAY;
    var h := rem / HOUR;
    assert diff == d * DAY + rem;
    assert rem == h * HOUR + rem % HOUR;
    assert 0 <= h < 24 by {
      assert rem < 24 * HOUR;
    }
  }

  /** getTimeUntilBooking; None stands for an invalid date, whose NaN
      difference fails both tests. */
  function TimeUntil(instant: Option<int>, now: int): (r: string)
  {
    if instant.None? then "Soon"
    else
      var c := CountdownOf(instant.value - now);
      if c.days > 0 then IntToString(c.days) + "d " + IntToString(c.hours) + "h"
      else if c.hours > 0 then IntToString(c.hours) + "h"
      else "Soon"
  }

  lemma CountdownOfPast(diff: int)
    requires diff < 0
    ensures CountdownOf(diff).days < 0 && CountdownOf(diff).hours <= 0
  {
  }

  lemma CountdownWithinDay(diff: int)
    requires 0 <= diff < DAY
    ensures CountdownOf(diff) == Countdown(0, diff / HOUR)
  {
  }

  lemma CountdownOverDay(diff: int)
    requires diff >= DAY
    ensures CountdownOf(diff).days >= 1
  {
  }

  /** The label shows days from one full day on, hours alone from one full
      hour on, and "Soon" below an hour, for past bookings and for invalid
      dates. */
  lemma {:induction false} TimeUntilBands(instant: Option<int>, now: int)
    ensures TimeUntil(instant, now) == "Soon" <==> instant.None? || instant.value - now < HOUR
    ensures instant.Some? && instant.value - now >= DAY ==>
      TimeUntil(instant, now) ==
        IntToString((instant.value - now) / DAY) + "d " + IntToString((instant.value - now) % DAY / HOUR) + "h"
    ensures instant.Some? && HOUR <= instant.value - now < DAY ==>
      TimeUntil(instant, now) == IntToString((instant.value - now) / HOUR) + "h"
  {
    if instant.Some? {
      var diff := instant.value - now;
      var c := CountdownOf(diff);
      if diff < 0 {
        CountdownOfPast(diff);
      } else if diff < DAY {
        CountdownWithinDay(diff);
        if diff >= HOUR {
          assert c.hours >= 1;
          assert TimeUntil(instant, now)[|TimeUntil(instant, now)| - 1] == 'h';
        }
      } else {
        CountdownOverDay(diff);
      }
    }
  }

  // ---------------------------------------------------------------------
  // Urgency

  const RED: string := "text-red-600 bg-red-100"
  const ORANGE: string := "text-orange-600 bg-orange-100"
  const GREEN: string := "text-green-600 bg-green-100"

  /** getUrgencyColor: the difference in (fractional) hours is compared with
      24 and 48; an invalid date's NaN fails both and is green. */
  function Urgency(instant: Option<int>, now: int): (r: string)
    ensures r == RED <==> instant.Some? && instant.value - now < 24 * HOUR
    ensures r == ORANGE <==> instant.Some? && 24 * HOUR <= instant.value - now < 48 * HOUR
    ensures r == GREEN <==> instant.None? || instant.value - now >= 48 * HOUR
  {
    if instant.Some? && instant.value - now < 24 * HOUR then RED
    else if instant.Some? && instant.value - now < 48 * HOUR then ORANGE
    else GREEN
  }

  /** Red is shown exactly when the countdown has no whole day left, and
      orange exactly when it has one. */
  lemma {:induction false} UrgencyMatchesCountdown(t: int, now: int)
    ensures Urgency(Some(t), now) == RED <==> CountdownOf(t - now).days <= 0
    ensures Urgency(Some(t), now) == ORANGE <==> CountdownOf(t - now).days == 1
  {
    var diff := t - now;
    var d := diff / DAY;
    assert diff == d * DAY + diff % DAY;
    if d <= 0 {
      assert diff < DAY;
    } else if d == 1 {
      assert DAY <= diff < 2 * DAY;
    } else {
      assert diff >= 2 * DAY;
    }
  }

  // ---------------------------------------------------------------------
  // Row display

  /** The service column: serviceDisplayName, else serviceName, else "-". */
  function ServiceLabel(b: Booking): (r: string)
    ensures r != ""
    ensures r == b.serviceDisplayName || r == b.serviceName || r == "-"
    ensures b.serviceDisplayName != "" ==> r == b.serviceDisplayName
    ensures b.serviceDisplayName == "" && b.serviceName != "" ==> r == b.serviceName
  {
    OrElse(b.serviceDisplayName, OrElse(b.serviceName, "-"))
  }

  /** The status badge of a row: "default" only for CONFIRMED. */
  function StatusVariant(status: string): (r: string)
    ensures r == "default" <==> status == CONFIRMED
    ensures r != "default" ==> r == "outline"
  {
    if status == CONFIRMED then "default" else "outline"
  }
}
