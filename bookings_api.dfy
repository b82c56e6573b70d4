/** The bookings API helpers of src/app/api/bookings.ts and their twin in
    src/lib/api/bookings.ts, which differ only in how the request reaches
    the backend (a bare axios call with a bearer header, or the shared
    apiClient): loading a stylist's bookings through the caller's state
    setters, and the status, reschedule and cancel requests with the way
    each one words its failures. */
module BookingsApi {
  import opened Js
  import opened Http
  import opened BookingModel
  import opened TimeSlots

  // ---------------------------------------------------------------------
  // Id extraction

  /** `values.filter(id => typeof id === 'string')`, keeping the strings. */
  function StringIds(values: seq<JsValue>): (r: seq<string>)
    ensures |r| <= |values|
    ensures forall x :: x in r <==> Str(x) in values
    decreases |values|
  {
    if values == [] then []
    else (if values[0].Str? then [values[0].s] else []) + StringIds(values[1..])
  }

  /** Each string id occurs as often as it does among the values, and in
      the same order: no de-duplication. */
  lemma {:induction false} StringIdsMultiplicity(values: seq<JsValue>, x: string)
    ensures multiset(StringIds(values))[x] == multiset(values)[Str(x)]
    decreases |values|
  {
    if values != [] {
      assert values == [values[0]] + values[1..];
      StringIdsMultiplicity(values[1..], x);
    }
  }

  function ServiceIdValues(bookings: seq<Booking>): (r: seq<JsValue>)
    ensures |r| == |bookings| && forall i :: 0 <= i < |bookings| ==> r[i] == bookings[i].serviceId
  {
    seq(|bookings|, i requires 0 <= i < |bookings| => bookings[i].serviceId)
  }

  function SlotIdValues(bookings: seq<Booking>): (r: seq<JsValue>)
    ensures |r| == |bookings| && forall i :: 0 <= i < |bookings| ==> r[i] == bookings[i].slotId
  {
    seq(|bookings|, i requires 0 <= i < |bookings| => bookings[i].slotId)
  }

  /** serviceIds: the string-typed service ids, in booking order. */
  function ServiceIds(bookings: seq<Booking>): seq<string> {
    StringIds(ServiceIdValues(bookings))
  }

  /** slotIds: the string-typed slot ids, in booking order. */
  function SlotIds(bookings: seq<Booking>): seq<string> {
    StringIds(SlotIdValues(bookings))
  }

  /** An id is extracted exactly when some booking carries it as a string;
      non-string ids (numbers, null, absent) are dropped. */
  lemma {:induction false} ExtractedIds(bookings: seq<Booking>, id: string)
    ensures id in ServiceIds(bookings) <==> exists i :: 0 <= i < |bookings| && bookings[i].serviceId == Str(id)
    ensures id in SlotIds(bookings) <==> exists i :: 0 <= i < |bookings| && bookings[i].slotId == Str(id)
    ensures multiset(SlotIds(bookings))[id] == multiset(SlotIdValues(bookings))[Str(id)]
  {
    StringIdsMultiplicity(SlotIdValues(bookings), id);
    if Str(id) in ServiceIdValues(bookings) {
      var i :| 0 <= i < |bookings| && ServiceIdValues(bookings)[i] == Str(id);
      assert bookings[i].serviceId == Str(id);
    }
    if Str(id) in SlotIdValues(bookings) {
      var i :| 0 <= i < |bookings| && SlotIdValues(bookings)[i] == Str(id);
      assert bookings[i].slotId == Str(id);
    }
  }

  // ---------------------------------------------------------------------
  // fetchBookings

  /** What fetchBookings calls on the backend: the bookings of a stylist,
      the service-name resolver (whose body is not part of this model: it
      either fails, or succeeds and may call setServiceNames with a new map),
      and getSlotById for fetchSlotTimes. */
  datatype Backend = Backend(
    bookingsFor: string -> Response<seq<Booking>>,
    serviceNamesFor: (seq<string>, map<string, string>) -> Response<Option<map<string, string>>>,
    getSlot: string -> Response<Slot>)

  /** One call of a setter the caller hands to fetchBookings. */
  datatype SetterCall =
    | SetIsError(isError: bool)
    | SetIsLoading(isLoading: bool)
    | SetBookings(bookings: seq<Booking>)
    | SetServiceNames(names: map<string, string>)
    | SetSlotTimes(times: map<string, string>)

  /** The observable course of one fetchBookings: the bookings request, the
      ids handed to each resolver when it is called, and the setter calls in
      order. */
  datatype FetchRun = FetchRun(
    request: Option<Request>,
    serviceIdsPassed: Option<seq<string>>,
    slotIdsPassed: Option<seq<string>>,
    calls: seq<SetterCall>)

  function BookingsRequest(userId: string): Request {
    Request(GET, "/bookings/provider/" + userId, Undefined)
  }

  /** The service-name resolver is called and fails. */
  predicate NamesFail(data: seq<Booking>, backend: Backend, serviceNames: map<string, string>) {
    ServiceIds(data) != [] && backend.serviceNamesFor(ServiceIds(data), serviceNames).Failure?
  }

  /** The map the service-name resolver hands to setServiceNames: None
      when it is not called (no service ids), fails, or sets nothing. */
  function NamesUpdate(data: seq<Booking>, backend: Backend, serviceNames: map<string, string>): Option<map<string, string>> {
    var ids := ServiceIds(data);
    if ids != [] && backend.serviceNamesFor(ids, serviceNames).Answer? then backend.serviceNamesFor(ids, serviceNames).data
    else None
  }

  /** The setter calls of one fetchBookings, in order. */
  function FetchCalls(userId: string, backend: Backend, serviceNames: map<string, string>, slotTimes: map<string, string>): seq<SetterCall> {
    if userId == "" then [SetIsError(true), SetIsLoading(false)]
    else if backend.bookingsFor(userId).Failure? then [SetIsLoading(true), SetIsError(true), SetIsLoading(false)]
    else
      var data := backend.bookingsFor(userId).data;
      if NamesFail(data, backend, serviceNames) then
        [SetIsLoading(true), SetBookings(data), SetIsError(false), SetIsError(true), SetIsLoading(false)]
      else
        [SetIsLoading(true), SetBookings(data), SetIsError(false)] +
        CacheCalls(NamesUpdate(data, backend, serviceNames), SlotTimesUpdate(SlotIds(data), slotTimes, backend.getSlot)) +
        [SetIsLoading(false)]
  }

  /** The resolution step of fetchBookings once the bookings are stored:
      service names, then (unless that failed) slot times, each resolver
      called only for a non-empty id list. It calls no setter but the two
      cache setters, and reports whether it failed. */
  method ResolveCaches(data: seq<Booking>, backend: Backend, serviceNames: map<string, string>, slotTimes: map<string, string>)
    returns (serviceIdsPassed: Option<seq<string>>, slotIdsPassed: Option<seq<string>>, calls: seq<SetterCall>, failed: bool)
    ensures failed <==> NamesFail(data, backend, serviceNames)
    ensures serviceIdsPassed == if ServiceIds(data) != [] then Some(ServiceIds(data)) else None
    ensures slotIdsPassed == if !failed && SlotIds(data) != [] then Some(SlotIds(data)) else None
    ensures forall k :: 0 <= k < |calls| ==> calls[k].SetServiceNames? || calls[k].SetSlotTimes?
    ensures forall k :: 0 <= k < |calls| && calls[k].SetSlotTimes? ==>
      slotIdsPassed.Some? && Some(calls[k].times) == SlotTimesUpdate(slotIdsPassed.value, slotTimes, backend.getSlot)
    ensures calls == if failed then [] else
      CacheCalls(NamesUpdate(data, backend, serviceNames), SlotTimesUpdate(SlotIds(data), slotTimes, backend.getSlot))
  {
    serviceIdsPassed := None;
    slotIdsPassed := None;
    failed := false;
    var names: Option<map<string, string>> := None;
    var times: Option<map<string, string>> := None;
    var serviceIds := ServiceIds(data);
    if |serviceIds| > 0 {
      serviceIdsPassed := Some(serviceIds);
      var resolved := backend.serviceNamesFor(serviceIds, serviceNames);
      if resolved.Failure? {
        failed := true;
        return serviceIdsPassed, slotIdsPassed, [], failed;
      }
      names := resolved.data;
    }
    var slotIds := SlotIds(data);
    if |slotIds| > 0 {
      slotIdsPassed := Some(slotIds);
      var requested, update := FetchSlotTimes(slotIds, slotTimes, backend.getSlot);
      times := update;
    }
    calls := CacheCalls(names, times);
  }

  /** The cache setters called, in order: service names, then slot times,
      each exactly when there is a value to set. */
  function CacheCalls(names: Option<map<string, string>>, times: Option<map<string, string>>): (r: seq<SetterCall>)
    ensures |r| == (if names.Some? then 1 else 0) + (if times.Some? then 1 else 0)
    ensures names.Some? ==> r[0] == SetServiceNames(names.value)
    ensures times.Some? ==> r[|r| - 1] == SetSlotTimes(times.value)
    ensures forall k :: 0 <= k < |r| ==> r[k].SetServiceNames? || r[k].SetSlotTimes?
    ensures forall k :: 0 <= k < |r| && r[k].SetSlotTimes? ==> times == Some(r[k].times)
    ensures forall k :: 0 <= k < |r| && r[k].SetServiceNames? ==> names == Some(r[k].names)
  {
    match (names, times)
    case (Some(n), Some(t)) => [SetServiceNames(n), SetSlotTimes(t)]
    case (Some(n), None) => [SetServiceNames(n)]
    case (None, Some(t)) => [SetSlotTimes(t)]
    case (None, None) => []
  }

  /** The order of the setter calls after a successful GET: loading on, the
      bookings, the error cleared, then the cache setters, then the closing
      calls. Only the closing calls can flag an error, and the bookings are
      set at index 1 alone. */
  lemma CallsLayout(data: seq<Booking>, resolved: seq<SetterCall>, tail: seq<SetterCall>)
    requires forall k :: 0 <= k < |resolved| ==> resolved[k].SetServiceNames? || resolved[k].SetSlotTimes?
    requires tail == [SetIsError(true), SetIsLoading(false)] || tail == [SetIsLoading(false)]
    ensures var calls := [SetIsLoading(true), SetBookings(data), SetIsError(false)] + resolved + tail;
      |calls| >= 2 && calls[|calls| - 1] == SetIsLoading(false) &&
      calls[0] == SetIsLoading(true) && calls[1] == SetBookings(data) &&
      (SetIsError(true) in calls <==> tail[0] == SetIsError(true)) &&
      (forall k :: 0 <= k < |calls| && calls[k].SetBookings? ==> k == 1) &&
      (forall k :: 0 <= k < |calls| && calls[k].SetSlotTimes? ==> 3 <= k < 3 + |resolved| && calls[k] == resolved[k - 3])
  {
    var head := [SetIsLoading(true), SetBookings(data), SetIsError(false)];
    var calls := head + resolved + tail;
    forall k | 0 <= k < |calls|
      ensures |head| <= k < |head| + |resolved| ==> calls[k] == resolved[k - |head|]
      ensures |head| + |resolved| <= k ==> calls[k] == tail[k - |head| - |resolved|]
    {
    }
    if SetIsError(true) in calls {
      var k :| 0 <= k < |calls| && calls[k] == SetIsError(true);
      assert k >= |head| + |resolved|;
    }
    if tail[0] == SetIsError(true) {
      assert calls[|head| + |resolved|] == SetIsError(true);
    }
  }

  /** fetchBookings: without a user id, flag the error and stop loading
      without any request; otherwise start loading, store the raw bookings,
      clear the error, resolve service names and then slot times (each only
      for a non-empty id list), flag the error on any failure, and stop
      loading in every case. */
  method FetchBookings(userId: string, backend: Backend, serviceNames: map<string, string>, slotTimes: map<string, string>)
    returns (run: FetchRun)
    ensures |run.calls| >= 2 && run.calls[|run.calls| - 1] == SetIsLoading(false)
    ensures userId == "" ==> run == FetchRun(None, None, None, [SetIsError(true), SetIsLoading(false)])
    ensures userId != "" ==> run.request == Some(BookingsRequest(userId)) && run.calls[0] == SetIsLoading(true)
    ensures SetIsError(true) in run.calls <==>
      (userId == "" || backend.bookingsFor(userId).Failure? || NamesFail(backend.bookingsFor(userId).data, backend, serviceNames))
    ensures userId != "" && backend.bookingsFor(userId).Answer? ==> run.calls[1] == SetBookings(backend.bookingsFor(userId).data)
    ensures forall k :: 0 <= k < |run.calls| && run.calls[k].SetBookings? ==>
      k == 1 && userId != "" && backend.bookingsFor(userId).Answer?
    ensures run.serviceIdsPassed ==
      (if userId != "" && backend.bookingsFor(userId).Answer? && ServiceIds(backend.bookingsFor(userId).data) != []
       then Some(ServiceIds(backend.bookingsFor(userId).data)) else None)
    ensures run.slotIdsPassed ==
      (if userId != "" && backend.bookingsFor(userId).Answer? && !NamesFail(backend.bookingsFor(userId).data, backend, serviceNames)
          && SlotIds(backend.bookingsFor(userId).data) != []
       then Some(SlotIds(backend.bookingsFor(userId).data)) else None)
    ensures forall k :: 0 <= k < |run.calls| && run.calls[k].SetSlotTimes? ==>
      run.slotIdsPassed.Some? && Some(run.calls[k].times) == SlotTimesUpdate(run.slotIdsPassed.value, slotTimes, backend.getSlot)
    ensures run.calls == FetchCalls(userId, backend, serviceNames, slotTimes)
  {
    if userId == "" {
      return FetchRun(None, None, None, [SetIsError(true), SetIsLoading(false)]);
    }
    var request := BookingsRequest(userId);
    var response := backend.bookingsFor(userId);
    if response.Failure? {
      return FetchRun(Some(request), None, None, [SetIsLoading(true), SetIsError(true), SetIsLoading(false)]);
    }
    var data := response.data;
    var head := [SetIsLoading(true), SetBookings(data), SetIsError(false)];
    var serviceIdsPassed, slotIdsPassed, resolved, failed := ResolveCaches(data, backend, serviceNames, slotTimes);
    var tail := if failed then [SetIsError(true), SetIsLoading(false)] else [SetIsLoading(false)];
    var calls := head + resolved + tail;
    CallsLayout(data, resolved, tail);
    if failed {
      assert calls == [SetIsLoading(true), SetBookings(data), SetIsError(false), SetIsError(true), SetIsLoading(false)];
    }
    return FetchRun(Some(request), serviceIdsPassed, slotIdsPassed, calls);
  }

  /** Once the bookings have arrived and the service names did not fail,
      each resolved cache is handed to its setter. */
  lemma FetchStoresCaches(userId: string, backend: Backend, serviceNames: map<string, string>, slotTimes: map<string, string>)
    requires userId != "" && backend.bookingsFor(userId).Answer?
    requires !NamesFail(backend.bookingsFor(userId).data, backend, serviceNames)
    ensures var data := backend.bookingsFor(userId).data;
      NamesUpdate(data, backend, serviceNames).Some? ==>
        SetServiceNames(NamesUpdate(data, backend, serviceNames).value) in FetchCalls(userId, backend, serviceNames, slotTimes)
    ensures var data := backend.bookingsFor(userId).data;
      SlotTimesUpdate(SlotIds(data), slotTimes, backend.getSlot).Some? ==>
        SetSlotTimes(SlotTimesUpdate(SlotIds(data), slotTimes, backend.getSlot).value) in FetchCalls(userId, backend, serviceNames, slotTimes)
  {
    var data := backend.bookingsFor(userId).data;
    var mid := CacheCalls(NamesUpdate(data, backend, serviceNames), SlotTimesUpdate(SlotIds(data), slotTimes, backend.getSlot));
    var calls := [SetIsLoading(true), SetBookings(data), SetIsError(false)] + mid + [SetIsLoading(false)];
    if mid != [] {
      assert calls[3] == mid[0] && calls[3 + |mid| - 1] == mid[|mid| - 1];
    }
  }

  // ---------------------------------------------------------------------
  // updateBookingStatus

  const CORS_ERROR: string := "CORS error: Backend must allow PATCH method in Access-Control-Allow-Methods"
  const STATUS_SERVER_ERROR: string := "Backend server error: Unable to update booking status"
  const STATUS_NOT_FOUND: string := "Endpoint not found: Backend may not support status updates"

  function StatusRequest(id: string, status: string): Request {
    Request(PATCH, "/bookings/" + id + "/status", Obj(map["status" := Str(status)]))
  }

  /** How updateBookingStatus ends on a failed PATCH: the network code is
      checked first, then 500, then 404; anything else is rethrown as it is. */
  function StatusFailure(e: HttpError): (r: Outcome<JsValue>)
    ensures IsNetworkError(e) ==> r == Raised(CORS_ERROR)
    ensures !IsNetworkError(e) && HasStatus(e, 500) ==> r == Raised(STATUS_SERVER_ERROR)
    ensures !IsNetworkError(e) && HasStatus(e, 404) ==> r == Raised(STATUS_NOT_FOUND)
    ensures r.Rethrown? <==> !IsNetworkError(e) && !HasStatus(e, 500) && !HasStatus(e, 404)
    ensures r.Rethrown? ==> r.cause == e
    ensures !r.Done?
  {
    if IsNetworkError(e) then Raised(CORS_ERROR)
    else if HasStatus(e, 500) then Raised(STATUS_SERVER_ERROR)
    else if HasStatus(e, 404) then Raised(STATUS_NOT_FOUND)
    else Rethrown(e)
  }

  /** updateBookingStatus: a PATCH of `{status}` to the booking's status
      endpoint, returning the backend's data. */
  function UpdateBookingStatus(id: string, status: string, response: Response<JsValue>): (r: Call<JsValue>)
    ensures r.request == Some(StatusRequest(id, status))
    ensures r.outcome.Done? <==> response.Answer?
    ensures response.Answer? ==> r.outcome.value == response.data
    ensures response.Failure? ==> r.outcome == StatusFailure(response.err)
  {
    match response
    case Answer(d) => Call(Some(StatusRequest(id, status)), Done(d))
    case Failure(e) => Call(Some(StatusRequest(id, status)), StatusFailure(e))
  }

  // ---------------------------------------------------------------------
  // rescheduleBooking

  const RESCHEDULE_NETWORK: string := "Network error: Please check your connection and try again."
  const RESCHEDULE_NOT_FOUND: string := "Reschedule endpoint not found. This feature may not be available."
  const RESCHEDULE_INVALID: string := "Invalid request: The selected time slot may not be available."

  /** The reschedule body; an omitted status defaults to RESCHEDULED. */
  function RescheduleBody(newDateTime: string, stylistId: string, status: Option<string>): (r: JsValue)
    ensures r.Obj? && r.fields.Keys == {"stylistId", "newStartTime", "status"}
    ensures r.fields["newStartTime"] == Str(newDateTime) && r.fields["stylistId"] == Str(stylistId)
    ensures status.None? ==> r.fields["status"] == Str(RESCHEDULED)
    ensures status.Some? ==> r.fields["status"] == Str(status.value)
  {
    var s := if status.Some? then status.value else RESCHEDULED;
    Obj(map["stylistId" := Str(stylistId), "newStartTime" := Str(newDateTime), "status" := Str(s)])
  }

  function RescheduleRequest(id: string, newDateTime: string, stylistId: string, status: Option<string>): Request {
    Request(PATCH, "/bookings/" + id + "/reschedule", RescheduleBody(newDateTime, stylistId, status))
  }

  /** How rescheduleBooking ends on a failed PATCH: network code, 404, 400
      and 500 in that order, the last quoting the backend's message or error;
      anything else is rethrown. */
  function RescheduleFailure(e: HttpError): (r: Outcome<JsValue>)
    ensures IsNetworkError(e) ==> r == Raised(RESCHEDULE_NETWORK)
    ensures !IsNetworkError(e) && HasStatus(e, 404) ==> r == Raised(RESCHEDULE_NOT_FOUND)
    ensures !IsNetworkError(e) && HasStatus(e, 400) ==> r == Raised(RESCHEDULE_INVALID)
    ensures !IsNetworkError(e) && HasStatus(e, 500) ==>
      r == Raised("Server error: " + (if e.message != "" then e.message else if e.error != "" then e.error else "Server error occurred"))
    ensures r.Rethrown? <==> !IsNetworkError(e) && !HasStatus(e, 404) && !HasStatus(e, 400) && !HasStatus(e, 500)
    ensures r.Rethrown? ==> r.cause == e
    ensures !r.Done?
  {
    if IsNetworkError(e) then Raised(RESCHEDULE_NETWORK)
    else if HasStatus(e, 404) then Raised(RESCHEDULE_NOT_FOUND)
    else if HasStatus(e, 400) then Raised(RESCHEDULE_INVALID)
    else if HasStatus(e, 500) then Raised("Server error: " + OrElse(e.message, OrElse(e.error, "Server error occurred")))
    else Rethrown(e)
  }

  /** rescheduleBooking */
  function RescheduleBooking(id: string, newDateTime: string, stylistId: string, status: Option<string>, response: Response<JsValue>): (r: Call<JsValue>)
    ensures r.request == Some(RescheduleRequest(id, newDateTime, stylistId, status))
    ensures r.outcome.Done? <==> response.Answer?
    ensures response.Answer? ==> r.outcome.value == response.data
    ensures response.Failure? ==> r.outcome == RescheduleFailure(response.err)
  {
    var request := RescheduleRequest(id, newDateTime, stylistId, status);
    match response
    case Answer(d) => Call(Some(request), Done(d))
    case Failure(e) => Call(Some(request), RescheduleFailure(e))
  }

  // ---------------------------------------------------------------------
  // cancelBooking

  function CancelRequest(id: string): Request {
    Request(DELETE, "/bookings/" + id, Undefined)
  }

  /** cancelBooking: a DELETE of the booking itself, every failure rethrown. */
  function CancelBooking(id: string, response: Response<JsValue>): (r: Call<JsValue>)
    ensures r.request == Some(CancelRequest(id))
    ensures response.Answer? ==> r.outcome == Done(response.data)
    ensures response.Failure? ==> r.outcome == Rethrown(response.err)
  {
    match response
    case Answer(d) => Call(Some(CancelRequest(id)), Done(d))
    case Failure(e) => Call(Some(CancelRequest(id)), Rethrown(e))
  }

  /** Cancelling is not a status change: it deletes the booking's own
      resource, a different request from every status update and every
      reschedule of the same booking. */
  lemma CancelIsNotAStatusChange(id: string, status: string, newDateTime: string, stylistId: string, s: Option<string>)
    ensures CancelRequest(id) != StatusRequest(id, status)
    ensures CancelRequest(id).path != StatusRequest(id, status).path
    ensures CancelRequest(id).path != RescheduleRequest(id, newDateTime, stylistId, s).path
  {
    assert |CancelRequest(id).path| < |StatusRequest(id, status).path|;
    assert |CancelRequest(id).path| < |RescheduleRequest(id, newDateTime, stylistId, s).path|;
  }

  /** The network code wins over every status in both mappings, and the two
      helpers agree that a network failure is reported, never rethrown. */
  lemma NetworkErrorWins(e: HttpError)
    requires IsNetworkError(e)
    ensures StatusFailure(e) == Raised(CORS_ERROR)
    ensures RescheduleFailure(e) == Raised(RESCHEDULE_NETWORK)
    ensures !StatusFailure(e).Rethrown? && !RescheduleFailure(e).Rethrown?
  {
  }
}
