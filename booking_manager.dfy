/** The booking manager of src/components/bookings/BookingManager.tsx: the
    component state it keeps, the reschedule modal, the confirm, cancel,
    complete and reschedule actions (each followed by a reload of the
    bookings), and the dashboard statistics. The requests it sends and the
    error toasts it shows are recorded in order. */
module BookingManager {
  import opened Js
  import opened Seqs
  import opened Http
  import opened Platform
  import opened BookingModel
  import opened BookingsApi
  import BookingList
  import UpcomingBookings

  // ---------------------------------------------------------------------
  // The setters the component hands to fetchBookings

  /** The part of the state fetchBookings writes through its setters. */
  datatype Loaded = Loaded(bookings: seq<Booking>, loading: bool, serviceNames: map<string, string>, slotTimes: map<string, string>)

  /** The state after one setter call; setIsError is passed as a function
      that does nothing. */
  function Step(s: Loaded, c: SetterCall): Loaded {
    match c
    case SetIsError(_) => s
    case SetIsLoading(v) => s.(loading := v)
    case SetBookings(b) => s.(bookings := b)
    case SetServiceNames(m) => s.(serviceNames := m)
    case SetSlotTimes(m) => s.(slotTimes := m)
  }

  /** The state after the setter calls, in order. */
  function Setters(s: Loaded, calls: seq<SetterCall>): Loaded
    decreases |calls|
  {
    if calls == [] then s
    else Step(Setters(s, calls[..|calls| - 1]), calls[|calls| - 1])
  }

  /** Running two traces one after the other is running their concatenation. */
  lemma {:induction false} SettersConcat(s: Loaded, a: seq<SetterCall>, b: seq<SetterCall>)
    ensures Setters(s, a + b) == Setters(Setters(s, a), b)
    decreases |b|
  {
    if b == [] {
      assert a + b == a;
    } else {
      var n := |b| - 1;
      assert (a + b)[..|a + b| - 1] == a + b[..n];
      SettersConcat(s, a, b[..n]);
    }
  }

  lemma SettersSingle(s: Loaded, c: SetterCall)
    ensures Setters(s, [c]) == Step(s, c)
  {
    assert [c][..0] == [];
  }

  /** The cache setters leave each cache as its resolver computed it, or as
      it was when there is nothing to set. */
  lemma SettersOfCacheCalls(s: Loaded, names: Option<map<string, string>>, times: Option<map<string, string>>)
    ensures Setters(s, CacheCalls(names, times)) ==
      s.(serviceNames := if names.Some? then names.value else s.serviceNames,
         slotTimes := if times.Some? then times.value else s.slotTimes)
  {
    if names.Some? && times.Some? {
      assert CacheCalls(names, times) == [SetServiceNames(names.value)] + [SetSlotTimes(times.value)];
      SettersConcat(s, [SetServiceNames(names.value)], [SetSlotTimes(times.value)]);
      SettersSingle(s, SetServiceNames(names.value));
      SettersSingle(Step(s, SetServiceNames(names.value)), SetSlotTimes(times.value));
    } else if names.Some? {
      SettersSingle(s, SetServiceNames(names.value));
    } else if times.Some? {
      SettersSingle(s, SetSlotTimes(times.value));
    }
  }

  /** Setters over a trace of three calls. */
  lemma SettersThree(s: Loaded, a: SetterCall, b: SetterCall, c: SetterCall)
    ensures Setters(s, [a, b, c]) == Step(Step(Step(s, a), b), c)
  {
    assert [a, b, c] == [a, b] + [c] && [a, b] == [a] + [b];
    SettersConcat(s, [a, b], [c]);
    SettersConcat(s, [a], [b]);
    SettersSingle(s, a);
    SettersSingle(Step(s, a), b);
    SettersSingle(Step(Step(s, a), b), c);
  }

  /** Whether a fetch got the bookings and resolved the service names. */
  predicate FetchSettled(userId: string, backend: Backend, serviceNames: map<string, string>) {
    userId != "" && backend.bookingsFor(userId).Answer? &&
    !NamesFail(backend.bookingsFor(userId).data, backend, serviceNames)
  }

  /** The service-name cache after a fetch: the resolver's map when the fetch
      settled and there were ids to look up, else the old cache. */
  function NamesAfterFetch(userId: string, backend: Backend, serviceNames: map<string, string>): map<string, string> {
    if !FetchSettled(userId, backend, serviceNames) then serviceNames
    else
      var names := NamesUpdate(backend.bookingsFor(userId).data, backend, serviceNames);
      if names.Some? then names.value else serviceNames
  }

  /** The slot-time cache after a fetch: the merged map when the fetch
      settled and some slot time was missing, else the old cache. */
  function TimesAfterFetch(userId: string, backend: Backend, serviceNames: map<string, string>,
                           slotTimes: map<string, string>): map<string, string> {
    if !FetchSettled(userId, backend, serviceNames) then slotTimes
    else
      var times := TimeSlots.SlotTimesUpdate(SlotIds(backend.bookingsFor(userId).data), slotTimes, backend.getSlot);
      if times.Some? then times.value else slotTimes
  }

  /** What one fetchBookings leaves in the component: loading off; the
      fetched bookings once the GET succeeds, else the old ones; and each
      cache as its resolver computed it when the service names did not fail
      and there was something to set, else the old cache. */
  lemma SettersOfFetch(s: Loaded, userId: string, backend: Backend)
    ensures Setters(s, FetchCalls(userId, backend, s.serviceNames, s.slotTimes)) ==
      Loaded(if userId != "" && backend.bookingsFor(userId).Answer? then backend.bookingsFor(userId).data else s.bookings,
             false,
             NamesAfterFetch(userId, backend, s.serviceNames),
             TimesAfterFetch(userId, backend, s.serviceNames, s.slotTimes))
  {
    var calls := FetchCalls(userId, backend, s.serviceNames, s.slotTimes);
    if userId == "" {
      assert calls == [SetIsError(true)] + [SetIsLoading(false)];
      SettersConcat(s, [SetIsError(true)], [SetIsLoading(false)]);
      SettersSingle(s, SetIsError(true));
      SettersSingle(s, SetIsLoading(false));
    } else if backend.bookingsFor(userId).Failure? {
      SettersThree(s, SetIsLoading(true), SetIsError(true), SetIsLoading(false));
    } else {
      var data := backend.bookingsFor(userId).data;
      var head := [SetIsLoading(true), SetBookings(data), SetIsError(false)];
      SettersThree(s, SetIsLoading(true), SetBookings(data), SetIsError(false));
      var t := Setters(s, head);
      if NamesFail(data, backend, s.serviceNames) {
        assert calls == head + [SetIsError(true), SetIsLoading(false)];
        SettersConcat(s, head, [SetIsError(true), SetIsLoading(false)]);
        SettersConcat(t, [SetIsError(true)], [SetIsLoading(false)]);
        SettersSingle(t, SetIsError(true));
        SettersSingle(t, SetIsLoading(false));
      } else {
        var mid := CacheCalls(NamesUpdate(data, backend, s.serviceNames), TimeSlots.SlotTimesUpdate(SlotIds(data), s.slotTimes, backend.getSlot));
        SettersConcat(s, head + mid, [SetIsLoading(false)]);
        SettersConcat(s, head, mid);
        SettersOfCacheCalls(t, NamesUpdate(data, backend, s.serviceNames), TimeSlots.SlotTimesUpdate(SlotIds(data), s.slotTimes, backend.getSlot));
        SettersSingle(Setters(s, head + mid), SetIsLoading(false));
      }
    }
  }

  /** The bookings after the setters are those of the last setBookings, or
      the old ones when there is none. */
  lemma {:induction false} SettersBookings(s: Loaded, calls: seq<SetterCall>, j: int)
    requires -1 <= j < |calls| && (j >= 0 ==> calls[j].SetBookings?)
    requires forall k :: j < k < |calls| ==> !calls[k].SetBookings?
    ensures Setters(s, calls).bookings == if j >= 0 then calls[j].bookings else s.bookings
    decreases |calls|
  {
    if calls != [] && j < |calls| - 1 {
      SettersBookings(s, calls[..|calls| - 1], j);
    }
  }

  /** Each cache after the setters is the old one or one that a setter call
      carried. */
  lemma {:induction false} SettersCaches(s: Loaded, calls: seq<SetterCall>)
    ensures Setters(s, calls).slotTimes == s.slotTimes ||
      exists k :: 0 <= k < |calls| && calls[k] == SetSlotTimes(Setters(s, calls).slotTimes)
    ensures Setters(s, calls).serviceNames == s.serviceNames ||
      exists k :: 0 <= k < |calls| && calls[k] == SetServiceNames(Setters(s, calls).serviceNames)
    decreases |calls|
  {
    if calls != [] {
      var n := |calls| - 1;
      var init := calls[..n];
      SettersCaches(s, init);
      var before := Setters(s, init);
      var after := Setters(s, calls);
      if after.slotTimes != s.slotTimes && !calls[n].SetSlotTimes? {
        assert after.slotTimes == before.slotTimes;
        var k :| 0 <= k < |init| && init[k] == SetSlotTimes(before.slotTimes);
        assert calls[k] == init[k];
      }
      if after.serviceNames != s.serviceNames && !calls[n].SetServiceNames? {
        assert after.serviceNames == before.serviceNames;
        var k :| 0 <= k < |init| && init[k] == SetServiceNames(before.serviceNames);
        assert calls[k] == init[k];
      }
    }
  }

  /** The loaded state once one fetchBookings with the component's caches
      has settled. */
  function Fetched(s: Loaded, userId: string, backend: Backend): Loaded {
    Setters(s, FetchCalls(userId, backend, s.serviceNames, s.slotTimes))
  }

  /** A fetch does not look at the loading flag it starts from. */
  lemma FetchedIgnoresLoading(s: Loaded, t: Loaded, userId: string, backend: Backend)
    requires s.bookings == t.bookings && s.serviceNames == t.serviceNames && s.slotTimes == t.slotTimes
    ensures Fetched(s, userId, backend) == Fetched(t, userId, backend)
  {
    SettersOfFetch(s, userId, backend);
    SettersOfFetch(t, userId, backend);
  }

  /** The loaded state after `if (user?.id) await fetchBookings(...)`. */
  function Reloaded(s: Loaded, userId: JsValue, backend: Backend): Loaded {
    if Truthy(userId) then Fetched(s, ToStr(userId), backend) else s
  }

  // ---------------------------------------------------------------------
  // Reschedule helpers

  /** `${selectedDate}T${selectedTime}:00.000Z` */
  function RescheduleDateTime(date: string, time: string): string {
    date + "T" + time + ":00.000Z"
  }

  /** The submitted datetime gives back the picked date and time: the date
      is what precedes its first 'T' (the date picker's value has none), and
      the time sits between that 'T' and the fixed ":00.000Z" suffix. */
  lemma {:induction false} RescheduleDateTimeRoundTrip(date: string, time: string)
    requires 'T' !in date
    ensures BeforeFirst(RescheduleDateTime(date, time), 'T') == date
    ensures var r := RescheduleDateTime(date, time);
      |r| == |date| + |time| + 9 && r[|date| + 1..|r| - 8] == time && r[|r| - 8..] == ":00.000Z"
  {
    var r := RescheduleDateTime(date, time);
    BeforeFirstOfPrefix(date, 'T', "T" + time + ":00.000Z");
    assert r == date + ("T" + time + ":00.000Z");
  }

  // ---------------------------------------------------------------------
  // Stats

  datatype Stats = Stats(total: nat, today: nat, confirmed: nat, pending: nat)

  /** Whether `new Date(bookedAt || date || slotDate)` falls on today's
      local date; an invalid date never does. */
  function OnToday(now: int, host: Host): Booking -> bool {
    (b: Booking) =>
      var t := UpcomingBookings.UpcomingInstant(b, host);
      t.Some? && host.localDate(t.value) == host.localDate(now)
  }

  /** getStats */
  function GetStats(bookings: seq<Booking>, now: int, host: Host): (r: Stats)
    ensures r.total == |bookings|
    ensures r.today == Count(bookings, OnToday(now, host))
    ensures r.confirmed == Count(bookings, BookingList.HasStatus(CONFIRMED))
    ensures r.pending == Count(bookings, BookingList.HasStatus(PENDING))
  {
    Stats(|bookings|,
      Count(bookings, OnToday(now, host)),
      Count(bookings, BookingList.HasStatus(CONFIRMED)),
      Count(bookings, BookingList.HasStatus(PENDING)))
  }

  /** The counts partition nothing twice: confirmed and pending together
      never exceed the total, nor does today's count; a booking counts as
      confirmed exactly when its status is CONFIRMED, as often as it occurs. */
  lemma {:induction false} StatsBounds(bookings: seq<Booking>, now: int, host: Host, b: Booking)
    ensures GetStats(bookings, now, host).confirmed + GetStats(bookings, now, host).pending <= GetStats(bookings, now, host).total
    ensures GetStats(bookings, now, host).today <= GetStats(bookings, now, host).total
    ensures multiset(Filter(bookings, BookingList.HasStatus(CONFIRMED)))[b] ==
      if b.status == CONFIRMED then multiset(bookings)[b] else 0
  {
    CountDisjoint(bookings, BookingList.HasStatus(CONFIRMED), BookingList.HasStatus(PENDING));
    FilterMultiplicity(bookings, BookingList.HasStatus(CONFIRMED), b);
  }

  /** A booking counts towards today, as often as it occurs, exactly when
      its date parses to an instant on the same local day as now. */
  lemma TodayExactly(bookings: seq<Booking>, now: int, host: Host, b: Booking)
    ensures multiset(Filter(bookings, OnToday(now, host)))[b] ==
      if UpcomingBookings.UpcomingSource(b) != "" && host.parseDate(UpcomingBookings.UpcomingSource(b)).Some? &&
         host.localDate(host.parseDate(UpcomingBookings.UpcomingSource(b)).value) == host.localDate(now)
      then multiset(bookings)[b] else 0
  {
    assert OnToday(now, host)(b) <==>
      UpcomingBookings.UpcomingInstant(b, host).Some? &&
      host.localDate(UpcomingBookings.UpcomingInstant(b, host).value) == host.localDate(now);
    FilterMultiplicity(bookings, OnToday(now, host), b);
  }

  // ---------------------------------------------------------------------
  // The component

  const CONFIRM_FAILED: string := "Failed to confirm booking"
  const CANCEL_FAILED: string := "Failed to cancel booking"
  const COMPLETE_FAILED: string := "Failed to complete booking"
  const RESCHEDULE_FAILED: string := "Failed to reschedule booking"

  /** The bookings request fetchBookings sends for a user id, if any. */
  function ReloadRequests(userId: string): seq<Request> {
    if userId != "" then [BookingsRequest(userId)] else []
  }

  /** `if (user?.id) await fetchBookings(String(user.id))` */
  function ReloadFor(userId: JsValue): seq<Request> {
    if Truthy(userId) then ReloadRequests(ToStr(userId)) else []
  }

  class Manager {
    var bookings: seq<Booking>
    var loading: bool
    var rescheduleBookingId: Option<string>
    var selectedDate: string
    var selectedTime: string
    var serviceNames: map<string, string>
    var slotTimes: map<string, string>
    /** The booking requests the component has sent, in order: the bookings
        GET and the status, reschedule and delete calls. */
    var requests: seq<Request>
    /** The error toasts it has shown, in order. */
    var toasts: seq<string>

    constructor()
      ensures bookings == [] && !loading && rescheduleBookingId.None? && selectedDate == "" && selectedTime == ""
      ensures serviceNames == map[] && slotTimes == map[] && requests == [] && toasts == []
    {
      bookings := [];
      loading := false;
      rescheduleBookingId := None;
      selectedDate := "";
      selectedTime := "";
      serviceNames := map[];
      slotTimes := map[];
      requests := [];
      toasts := [];
    }

    function LoadedState(): Loaded
      reads this
    {
      Loaded(bookings, loading, serviceNames, slotTimes)
    }

    /** Runs the setter calls of one fetchBookings, in order. */
    method ApplySetters(calls: seq<SetterCall>)
      modifies this
      ensures LoadedState() == Setters(old(LoadedState()), calls)
      ensures rescheduleBookingId == old(rescheduleBookingId) && selectedDate == old(selectedDate) && selectedTime == old(selectedTime)
      ensures requests == old(requests) && toasts == old(toasts)
    {
      var i := 0;
      while i < |calls|
        invariant 0 <= i <= |calls|
        invariant LoadedState() == Setters(old(LoadedState()), calls[..i])
        invariant rescheduleBookingId == old(rescheduleBookingId) && selectedDate == old(selectedDate) && selectedTime == old(selectedTime)
        invariant requests == old(requests) && toasts == old(toasts)
      {
        match calls[i] {
          case SetIsError(_) =>
          case SetIsLoading(v) => loading := v;
          case SetBookings(b) => bookings := b;
          case SetServiceNames(m) => serviceNames := m;
          case SetSlotTimes(m) => slotTimes := m;
        }
        assert calls[..i + 1][..i] == calls[..i];
        i := i + 1;
      }
      assert calls[..i] == calls;
    }

    /** The component's fetchBookings: set loading, run the API helper with
        the component's setters and current caches, and clear loading. The
        helper catches every failure itself, so the "Failed to load
        bookings" toast is never shown. The bookings become the fetched ones
        when they arrive; each cache becomes what its resolver computed, when
        it computed something, and stays as it was otherwise. */
    method FetchBookings(userId: string, backend: Backend)
      modifies this
      ensures LoadedState() ==
        Loaded(if userId != "" && backend.bookingsFor(userId).Answer? then backend.bookingsFor(userId).data else old(bookings),
               false,
               NamesAfterFetch(userId, backend, old(serviceNames)),
               TimesAfterFetch(userId, backend, old(serviceNames), old(slotTimes)))
      ensures LoadedState() == Fetched(old(LoadedState()), userId, backend)
      ensures requests == old(requests) + ReloadRequests(userId) && toasts == old(toasts)
      ensures rescheduleBookingId == old(rescheduleBookingId) && selectedDate == old(selectedDate) && selectedTime == old(selectedTime)
    {
      ghost var start := LoadedState();
      loading := true;
      var run := BookingsApi.FetchBookings(userId, backend, serviceNames, slotTimes);
      if run.request.Some? {
        requests := requests + [run.request.value];
      }
      ghost var before := LoadedState();
      ApplySetters(run.calls);
      SettersOfFetch(before, userId, backend);
      SettersOfFetch(start, userId, backend);
      loading := false;
    }

    /** The reload after an action, as the handlers write it. */
    method Reload(userId: JsValue, backend: Backend)
      modifies this
      ensures requests == old(requests) + ReloadFor(userId) && toasts == old(toasts)
      ensures rescheduleBookingId == old(rescheduleBookingId) && selectedDate == old(selectedDate) && selectedTime == old(selectedTime)
      ensures LoadedState() == Reloaded(old(LoadedState()), userId, backend)
    {
      if Truthy(userId) {
        FetchBookings(ToStr(userId), backend);
      }
    }

    /** confirmBooking: PATCH the status to CONFIRMED and reload; the slot is
        not marked as booked (no request touches it). */
    method ConfirmBooking(id: string, userId: JsValue, response: Response<JsValue>, backend: Backend)
      modifies this
      ensures requests == old(requests) + [StatusRequest(id, CONFIRMED)] + (if response.Answer? then ReloadFor(userId) else [])
      ensures toasts == old(toasts) + (if response.Answer? then [] else [CONFIRM_FAILED])
      ensures LoadedState() == if response.Answer? then Reloaded(old(LoadedState()), userId, backend) else old(LoadedState())
      ensures rescheduleBookingId == old(rescheduleBookingId) && selectedDate == old(selectedDate) && selectedTime == old(selectedTime)
    {
      requests := requests + [StatusRequest(id, CONFIRMED)];
      var call := UpdateBookingStatus(id, CONFIRMED, response);
      if call.outcome.Done? {
        Reload(userId, backend);
      } else {
        toasts := toasts + [CONFIRM_FAILED];
      }
    }

    /** cancelBookingAction: DELETE the booking and reload. */
    method CancelBookingAction(id: string, userId: JsValue, response: Response<JsValue>, backend: Backend)
      modifies this
      ensures requests == old(requests) + [CancelRequest(id)] + (if response.Answer? then ReloadFor(userId) else [])
      ensures toasts == old(toasts) + (if response.Answer? then [] else [CANCEL_FAILED])
      ensures LoadedState() == if response.Answer? then Reloaded(old(LoadedState()), userId, backend) else old(LoadedState())
      ensures rescheduleBookingId == old(rescheduleBookingId) && selectedDate == old(selectedDate) && selectedTime == old(selectedTime)
    {
      requests := requests + [CancelRequest(id)];
      var call := CancelBooking(id, response);
      if call.outcome.Done? {
        Reload(userId, backend);
      } else {
        toasts := toasts + [CANCEL_FAILED];
      }
    }

    /** completeBooking: PATCH the status to COMPLETED and reload. */
    method CompleteBooking(id: string, userId: JsValue, response: Response<JsValue>, backend: Backend)
      modifies this
      ensures requests == old(requests) + [StatusRequest(id, COMPLETED)] + (if response.Answer? then ReloadFor(userId) else [])
      ensures toasts == old(toasts) + (if response.Answer? then [] else [COMPLETE_FAILED])
      ensures LoadedState() == if response.Answer? then Reloaded(old(LoadedState()), userId, backend) else old(LoadedState())
      ensures rescheduleBookingId == old(rescheduleBookingId) && selectedDate == old(selectedDate) && selectedTime == old(selectedTime)
    {
      requests := requests + [StatusRequest(id, COMPLETED)];
      var call := UpdateBookingStatus(id, COMPLETED, response);
      if call.outcome.Done? {
        Reload(userId, backend);
      } else {
        toasts := toasts + [COMPLETE_FAILED];
      }
    }

    /** rescheduleBookingAction: only a user id that is a string lets the
        request go out, with that id as the stylist and status RESCHEDULED;
        any other id raises before sending, and every failure becomes the
        same toast. */
    method RescheduleBookingAction(id: string, newDateTime: string, userId: JsValue, response: Response<JsValue>, backend: Backend)
      modifies this
      ensures !userId.Str? ==> requests == old(requests) && toasts == old(toasts) + [RESCHEDULE_FAILED]
      ensures userId.Str? ==>
        requests == old(requests) + [RescheduleRequest(id, newDateTime, userId.s, Some(RESCHEDULED))] +
          (if response.Answer? then ReloadRequests(userId.s) else [])
      ensures userId.Str? ==> toasts == old(toasts) + (if response.Answer? then [] else [RESCHEDULE_FAILED])
      ensures LoadedState() ==
        if userId.Str? && response.Answer? then Fetched(old(LoadedState()), userId.s, backend) else old(LoadedState())
      ensures rescheduleBookingId == old(rescheduleBookingId) && selectedDate == old(selectedDate) && selectedTime == old(selectedTime)
    {
      if userId.Str? {
        requests := requests + [RescheduleRequest(id, newDateTime, userId.s, Some(RESCHEDULED))];
        var call := RescheduleBooking(id, newDateTime, userId.s, Some(RESCHEDULED), response);
        if call.outcome.Done? {
          FetchBookings(userId.s, backend);
        } else {
          toasts := toasts + [RESCHEDULE_FAILED];
        }
      } else {
        toasts := toasts + [RESCHEDULE_FAILED];
      }
    }

    /** handleCancelReschedule: close the modal and clear the pickers. */
    method HandleCancelReschedule()
      modifies this
      ensures rescheduleBookingId.None? && selectedDate == "" && selectedTime == ""
      ensures LoadedState() == old(LoadedState()) && requests == old(requests) && toasts == old(toasts)
    {
      rescheduleBookingId := None;
      selectedDate := "";
      selectedTime := "";
    }

    /** handleRescheduleClick: open the modal for the booking with its
        current start time in the pickers (UTC date, local clock time), or
        empty pickers when it has no start time that parses. */
    method HandleRescheduleClick(b: Booking, host: Host)
      modifies this
      ensures rescheduleBookingId == Some(b.id)
      ensures var t := host.parseDate(StartTime(b, slotTimes));
        if StartTime(b, slotTimes) != "" && t.Some?
        then selectedDate == BeforeFirst(host.isoDate(t.value), 'T') && selectedTime == host.localClock(t.value)
        else selectedDate == "" && selectedTime == ""
      ensures LoadedState() == old(LoadedState()) && requests == old(requests) && toasts == old(toasts)
    {
      rescheduleBookingId := Some(b.id);
      var startTime := StartTime(b, slotTimes);
      if startTime != "" {
        var date := host.parseDate(startTime);
        if date.Some? {
          selectedDate := BeforeFirst(host.isoDate(date.value), 'T');
          selectedTime := host.localClock(date.value);
        } else {
          selectedDate := "";
          selectedTime := "";
        }
      } else {
        selectedDate := "";
        selectedTime := "";
      }
    }

    /** Whether saving the modal does anything: a truthy booking id, date
        and time. */
    predicate CanSave()
      reads this
    {
      rescheduleBookingId.Some? && rescheduleBookingId.value != "" && selectedDate != "" && selectedTime != ""
    }

    /** handleSaveReschedule: with the id, date and time all filled in, send
        the reschedule for the combined datetime and close the modal;
        otherwise do nothing at all. */
    method HandleSaveReschedule(userId: JsValue, response: Response<JsValue>, backend: Backend)
      modifies this
      ensures !old(CanSave()) ==>
        LoadedState() == old(LoadedState()) && requests == old(requests) && toasts == old(toasts) &&
        rescheduleBookingId == old(rescheduleBookingId) && selectedDate == old(selectedDate) && selectedTime == old(selectedTime)
      ensures old(CanSave()) ==> rescheduleBookingId.None? && selectedDate == "" && selectedTime == ""
      ensures old(CanSave()) && userId.Str? ==>
        requests == old(requests) + [RescheduleRequest(old(rescheduleBookingId).value,
          RescheduleDateTime(old(selectedDate), old(selectedTime)), userId.s, Some(RESCHEDULED))] +
          (if response.Answer? then ReloadRequests(userId.s) else [])
      ensures old(CanSave()) && userId.Str? ==> toasts == old(toasts) + (if response.Answer? then [] else [RESCHEDULE_FAILED])
      ensures old(CanSave()) && !userId.Str? ==> requests == old(requests) && toasts == old(toasts) + [RESCHEDULE_FAILED]
      ensures old(CanSave()) ==>
        LoadedState() == if userId.Str? && response.Answer? then Fetched(old(LoadedState()), userId.s, backend) else old(LoadedState())
    {
      if rescheduleBookingId.None? || rescheduleBookingId.value == "" || selectedDate == "" || selectedTime == "" {
        return;
      }
      var newDateTime := RescheduleDateTime(selectedDate, selectedTime);
      RescheduleBookingAction(rescheduleBookingId.value, newDateTime, userId, response, backend);
      HandleCancelReschedule();
    }

    /** The effect that loads the bookings once the session is known: only
        when auth has finished loading, the user is authenticated and has a
        truthy id. */
    method OnAuthReady(authLoading: bool, isAuthenticated: bool, userId: JsValue, backend: Backend)
      modifies this
      ensures requests == old(requests) + (if !authLoading && isAuthenticated then ReloadFor(userId) else [])
      ensures LoadedState() == if !authLoading && isAuthenticated then Reloaded(old(LoadedState()), userId, backend) else old(LoadedState())
      ensures toasts == old(toasts)
      ensures rescheduleBookingId == old(rescheduleBookingId) && selectedDate == old(selectedDate) && selectedTime == old(selectedTime)
    {
      if !authLoading && isAuthenticated {
        Reload(userId, backend);
      }
    }
  }

  /** The reschedule a saved modal sends reads back as the picked date and
      time: the request's new start time carries them unchanged. */
  lemma {:induction false} SavedRescheduleCarriesPick(id: string, date: string, time: string, stylistId: string)
    requires 'T' !in date
    ensures var body := RescheduleRequest(id, RescheduleDateTime(date, time), stylistId, Some(RESCHEDULED)).body;
      body.fields["newStartTime"].Str? &&
      BeforeFirst(body.fields["newStartTime"].s, 'T') == date &&
      body.fields["status"] == Str(RESCHEDULED) && body.fields["stylistId"] == Str(stylistId)
  {
    RescheduleDateTimeRoundTrip(date, time);
  }
}
