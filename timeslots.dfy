/** Time slots: the slot-time cache that bookings resolve their start time
    from, and the creation and listing of a stylist's slots, in the two
    variants src/app/api/timeslots.ts and src/lib/api/timeslots.ts. */
module TimeSlots {
  import opened Js
  import opened Seqs
  import opened Http
  import opened Platform
  import opened BookingModel
  import opened Auth

  /** A slot as the backend returns it; the four start-time fields under
      their JSON names, "" where absent. */
  datatype Slot = Slot(startTime: string, start_time: string, bookingTime: string, booking_time: string)

  /** `slot?.startTime || slot?.start_time || slot?.bookingTime || slot?.booking_time` */
  function SlotStartTime(s: Slot): (r: string)
    ensures r == "" <==> s.startTime == "" && s.start_time == "" && s.bookingTime == "" && s.booking_time == ""
    ensures s.startTime != "" ==> r == s.startTime
    ensures s.startTime == "" && s.start_time != "" ==> r == s.start_time
    ensures s.startTime == "" && s.start_time == "" && s.bookingTime != "" ==> r == s.bookingTime
    ensures s.startTime == "" && s.start_time == "" && s.bookingTime == "" ==> r == s.booking_time
  {
    OrElse(s.startTime, OrElse(s.start_time, OrElse(s.bookingTime, s.booking_time)))
  }

  // ---------------------------------------------------------------------
  // fetchSlotTimes

  /** `!newSlotTimes[id]`: no cached value, or an empty one. */
  function NotCached(cache: map<string, string>): string -> bool {
    (id: string) => !(id in cache && cache[id] != "")
  }

  /** The ids to fetch, in input order, duplicates kept. */
  function IdsToFetch(slotIds: seq<string>, cache: map<string, string>): seq<string> {
    Filter(slotIds, NotCached(cache))
  }

  /** The cache after the forEach over the fetched slots: every truthy
      start time is stored under its id, later ones over earlier ones. */
  function Merge(cache: map<string, string>, ids: seq<string>, slots: seq<Slot>): map<string, string>
    requires |ids| == |slots|
    decreases |ids|
  {
    if ids == [] then cache
    else
      var n := |ids| - 1;
      var before := Merge(cache, ids[..n], slots[..n]);
      if SlotStartTime(slots[n]) != "" then before[ids[n] := SlotStartTime(slots[n])] else before
  }

  predicate AllAnswered(ids: seq<string>, getSlot: string -> Response<Slot>) {
    forall i :: 0 <= i < |ids| ==> getSlot(ids[i]).Answer?
  }

  function Answers(ids: seq<string>, getSlot: string -> Response<Slot>): (r: seq<Slot>)
    requires AllAnswered(ids, getSlot)
    ensures |r| == |ids|
  {
    seq(|ids|, i requires 0 <= i < |ids| => getSlot(ids[i]).data)
  }

  /** The argument setSlotTimes is called with, or None when it is not
      called: nothing to fetch, or some fetch failed. */
  function SlotTimesUpdate(slotIds: seq<string>, cache: map<string, string>, getSlot: string -> Response<Slot>): Option<map<string, string>> {
    var ids := IdsToFetch(slotIds, cache);
    if ids == [] || !AllAnswered(ids, getSlot) then None
    else Some(Merge(cache, ids, Answers(ids, getSlot)))
  }

  /** `Promise.all` over getSlotById: every id is requested; the answers in
      id order, or None as soon as one request fails. */
  method FetchAll(ids: seq<string>, getSlot: string -> Response<Slot>) returns (slots: Option<seq<Slot>>)
    ensures slots.Some? <==> AllAnswered(ids, getSlot)
    ensures slots.Some? ==> slots.value == Answers(ids, getSlot)
  {
    var answers: seq<Slot> := [];
    var i := 0;
    while i < |ids|
      invariant 0 <= i <= |ids| && |answers| == i
      invariant forall k :: 0 <= k < i ==> getSlot(ids[k]).Answer? && answers[k] == getSlot(ids[k]).data
    {
      var response := getSlot(ids[i]);
      if response.Failure? {
        return None;
      }
      answers := answers + [response.data];
      i := i + 1;
    }
    return Some(answers);
  }

  /** fetchSlotTimes: copy the cache, fetch every id without a truthy
      cached time, and, only if all of them succeed, store each truthy start
      time and hand the new cache to setSlotTimes. The caller's cache is a
      value and is never changed. */
  method FetchSlotTimes(slotIds: seq<string>, slotTimes: map<string, string>, getSlot: string -> Response<Slot>)
    returns (requested: seq<string>, update: Option<map<string, string>>)
    ensures requested == IdsToFetch(slotIds, slotTimes)
    ensures update == SlotTimesUpdate(slotIds, slotTimes, getSlot)
  {
    var newSlotTimes := slotTimes;
    var idsToFetch := Filter(slotIds, NotCached(newSlotTimes));
    requested := idsToFetch;
    if |idsToFetch| == 0 {
      return requested, None;
    }
    var fetched := FetchAll(idsToFetch, getSlot);
    if fetched.None? {
      return requested, None;
    }
    var merged := MergeSlots(newSlotTimes, idsToFetch, fetched.value);
    update := Some(merged);
  }

  /** The forEach over the fetched slots: each truthy start time is written
      into the copied cache under the id it was fetched for. */
  method MergeSlots(cache: map<string, string>, ids: seq<string>, slots: seq<Slot>) returns (merged: map<string, string>)
    requires |ids| == |slots|
    ensures merged == Merge(cache, ids, slots)
  {
    merged := cache;
    var i := 0;
    while i < |slots|
      invariant 0 <= i <= |slots|
      invariant merged == Merge(cache, ids[..i], slots[..i])
    {
      MergeStep(cache, ids, slots, i);
      var startTime := SlotStartTime(slots[i]);
      if startTime != "" {
        merged := merged[ids[i] := startTime];
      }
      i := i + 1;
    }
    assert ids[..i] == ids && slots[..i] == slots;
  }

  /** One more fetched slot extends the merge by that slot's start time. */
  lemma MergeStep(cache: map<string, string>, ids: seq<string>, slots: seq<Slot>, i: int)
    requires |ids| == |slots| && 0 <= i < |ids|
    ensures Merge(cache, ids[..i + 1], slots[..i + 1]) ==
      if SlotStartTime(slots[i]) != "" then Merge(cache, ids[..i], slots[..i])[ids[i] := SlotStartTime(slots[i])]
      else Merge(cache, ids[..i], slots[..i])
  {
    assert ids[..i + 1][..i] == ids[..i] && slots[..i + 1][..i] == slots[..i];
  }

  /** Merging keeps every old key, changes only fetched ids, gives each
      fetched id with a truthy start time a truthy value, and every value it
      changes is the start time of a fetch of that id. */
  lemma {:induction false} MergeFacts(cache: map<string, string>, ids: seq<string>, slots: seq<Slot>)
    requires |ids| == |slots|
    ensures forall k :: k in cache ==> k in Merge(cache, ids, slots)
    ensures forall k :: k in cache && k !in ids ==> Merge(cache, ids, slots)[k] == cache[k]
    ensures forall j :: 0 <= j < |ids| && SlotStartTime(slots[j]) != "" ==>
      ids[j] in Merge(cache, ids, slots) && Merge(cache, ids, slots)[ids[j]] != ""
    ensures forall k :: k in Merge(cache, ids, slots) ==>
      (k in cache && Merge(cache, ids, slots)[k] == cache[k]) ||
      (exists j :: 0 <= j < |ids| && ids[j] == k && Merge(cache, ids, slots)[k] == SlotStartTime(slots[j]))
    decreases |ids|
  {
    if ids != [] {
      var n := |ids| - 1;
      MergeFacts(cache, ids[..n], slots[..n]);
      var before := Merge(cache, ids[..n], slots[..n]);
      var m := Merge(cache, ids, slots);
      forall k | k in cache && k !in ids
        ensures m[k] == cache[k]
      {
        assert k !in ids[..n];
      }
      forall j | 0 <= j < |ids| && SlotStartTime(slots[j]) != ""
        ensures ids[j] in m && m[ids[j]] != ""
      {
        if j < n {
          assert ids[..n][j] == ids[j] && slots[..n][j] == slots[j];
        }
      }
      forall k | k in m
        ensures (k in cache && m[k] == cache[k]) ||
          (exists j :: 0 <= j < |ids| && ids[j] == k && m[k] == SlotStartTime(slots[j]))
      {
        if k == ids[n] && SlotStartTime(slots[n]) != "" {
          assert m[k] == SlotStartTime(slots[n]);
        } else {
          assert m[k] == before[k];
          if !(k in cache && before[k] == cache[k]) {
            var j :| 0 <= j < n && ids[..n][j] == k && before[k] == SlotStartTime(slots[..n][j]);
            assert ids[j] == k && slots[j] == slots[..n][j];
          }
        }
      }
    }
  }

  /** A cached truthy start time is never overwritten: its id is not
      fetched. Every other old entry survives too, and a fetched id whose
      slot has a start time ends with a truthy value. */
  lemma {:induction false} UpdateKeepsCache(slotIds: seq<string>, cache: map<string, string>, getSlot: string -> Response<Slot>)
    requires SlotTimesUpdate(slotIds, cache, getSlot).Some?
    ensures forall k :: k in cache ==> k in SlotTimesUpdate(slotIds, cache, getSlot).value
    ensures forall k :: k in cache && cache[k] != "" ==> SlotTimesUpdate(slotIds, cache, getSlot).value[k] == cache[k]
    ensures forall id :: id in slotIds && NotCached(cache)(id) && SlotStartTime(getSlot(id).data) != "" ==>
      id in SlotTimesUpdate(slotIds, cache, getSlot).value && SlotTimesUpdate(slotIds, cache, getSlot).value[id] != ""
  {
    var ids := IdsToFetch(slotIds, cache);
    MergeFacts(cache, ids, Answers(ids, getSlot));
    forall k | k in cache && cache[k] != ""
      ensures k !in ids
    {
      assert !NotCached(cache)(k);
    }
    forall id | id in slotIds && NotCached(cache)(id) && SlotStartTime(getSlot(id).data) != ""
      ensures id in SlotTimesUpdate(slotIds, cache, getSlot).value && SlotTimesUpdate(slotIds, cache, getSlot).value[id] != ""
    {
      assert id in ids;
      var j :| 0 <= j < |ids| && ids[j] == id;
      assert Answers(ids, getSlot)[j] == getSlot(id).data;
    }
  }

  /** The batch is all or nothing: one failing fetch among the ids to fetch
      means setSlotTimes is never called; and an id is fetched as many times
      as it occurs uncached in the input. */
  lemma {:induction false} FetchAllOrNothing(slotIds: seq<string>, cache: map<string, string>, getSlot: string -> Response<Slot>, id: string)
    ensures id in IdsToFetch(slotIds, cache) && getSlot(id).Failure? ==> SlotTimesUpdate(slotIds, cache, getSlot).None?
    ensures multiset(IdsToFetch(slotIds, cache))[id] == if NotCached(cache)(id) then multiset(slotIds)[id] else 0
    ensures IdsToFetch(slotIds, cache) == [] ==> SlotTimesUpdate(slotIds, cache, getSlot).None?
  {
    FilterMultiplicity(slotIds, NotCached(cache), id);
  }

  /** After a successful update, a booking referring by string id to a
      fetched slot that has a start time resolves to a start time. */
  lemma BookingResolvesAfterUpdate(slotIds: seq<string>, cache: map<string, string>, getSlot: string -> Response<Slot>, b: Booking, id: string)
    requires SlotTimesUpdate(slotIds, cache, getSlot).Some?
    requires id != "" && b.slotId == Str(id) && id in slotIds
    requires getSlot(id).Answer? && SlotStartTime(getSlot(id).data) != ""
    ensures StartTime(b, SlotTimesUpdate(slotIds, cache, getSlot).value) != ""
  {
    UpdateKeepsCache(slotIds, cache, getSlot);
  }

  // ---------------------------------------------------------------------
  // createTimeSlot

  /** What the slot form submits. */
  datatype CreateSlotData = CreateSlotData(startTime: string, endTime: string, date: string, stylistId: string)

  /** The request body of both variants; only `datetime` differs. */
  function SlotBody(stylistId: JsValue, datetime: string, data: CreateSlotData, cleanDate: string): JsValue {
    Obj(map[
      "provider_id" := stylistId,
      "datetime" := Str(datetime),
      "start_time" := Str(data.startTime),
      "end_time" := Str(data.endTime),
      "date" := Str(cleanDate),
      "is_available" := Bool(true)])
  }

  /** `date.split('T')[0]` */
  function CleanDate(date: string): (r: string)
    ensures 'T' !in r && r <= date
    ensures 'T' !in date ==> r == date
  {
    BeforeFirst(date, 'T')
  }

  /** The stylist id of the src/app variant: the given one, else the stored
      one through getCurrentStylistId, which is a number; 0, NaN and null
      are all falsy, and leave no id. */
  function AppStylistId(provided: string, items: map<string, string>): (r: Option<JsValue>)
    ensures provided != "" ==> r == Some(Str(provided))
    ensures provided == "" && GetCurrentStylistId(items).Some? && NumberTruthy(GetCurrentStylistId(items).value) ==>
      r == Some(Num(GetCurrentStylistId(items).value.n))
    ensures r.None? <==>
      provided == "" && !(GetCurrentStylistId(items).Some? && NumberTruthy(GetCurrentStylistId(items).value))
    ensures r.Some? ==> Truthy(r.value)
  {
    if provided != "" then Some(Str(provided))
    else
      match GetCurrentStylistId(items)
      case Some(Finite(n)) => if n != 0 then Some(Num(n)) else None
      case _ => None
  }

  const NO_TOKEN: string := "No authentication token found"
  const NO_STYLIST: string := "No stylist ID available. Please log in again."
  const UNAUTHORIZED: string := "Unauthorized: Please log in again"
  const NETWORK_ERROR: string := "Network error: Please check your connection"

  /** How the src/app variant words a failed POST. */
  function AppCreateSlotMessage(e: HttpError, body: JsValue, host: Host): string {
    if HasStatus(e, 401) then UNAUTHORIZED
    else if HasStatus(e, 400) then
      "Backend validation failed: " + OrElse(e.message, OrElse(e.error, e.dataJson)) + ". Sent data: " + host.stringify(body)
    else if IsNetworkError(e) then NETWORK_ERROR
    else OrElse(e.message, "Failed to create time slot")
  }

  /** How the src/lib variant words it: the same, with 500 reported as a
      server error before the network check. */
  function LibCreateSlotMessage(e: HttpError, body: JsValue, host: Host): string {
    if HasStatus(e, 401) then UNAUTHORIZED
    else if HasStatus(e, 400) then
      "Backend validation failed: " + OrElse(e.message, OrElse(e.error, e.dataJson)) + ". Sent data: " + host.stringify(body)
    else if HasStatus(e, 500) then "Server error: " + OrElse(e.message, OrElse(e.error, e.dataJson))
    else if IsNetworkError(e) then NETWORK_ERROR
    else OrElse(e.message, "Failed to create time slot")
  }

  /** The two variants word every failure alike except a 500, which the
      src/lib variant reports as a server error even when the axios code
      is a network error. */
  lemma CreateSlotMessagesAgree(e: HttpError, body: JsValue, host: Host)
    ensures !HasStatus(e, 500) ==> AppCreateSlotMessage(e, body, host) == LibCreateSlotMessage(e, body, host)
    ensures HasStatus(e, 500) ==> LibCreateSlotMessage(e, body, host) == "Server error: " + OrElse(e.message, OrElse(e.error, e.dataJson))
    ensures HasStatus(e, 500) && IsNetworkError(e) ==> AppCreateSlotMessage(e, body, host) == NETWORK_ERROR
  {
  }

  /** createTimeSlot of src/app: the token check comes first, then the
      stylist id; the date loses any time part and the start datetime has no
      zone suffix. */
  function AppCreateTimeSlot(data: CreateSlotData, items: map<string, string>, post: Response<JsValue>, host: Host): (r: Call<JsValue>)
    ensures Item(items, TOKEN) == "" ==> r == Call(None, Raised(NO_TOKEN))
    ensures Item(items, TOKEN) != "" && AppStylistId(data.stylistId, items).None? ==> r == Call(None, Raised(NO_STYLIST))
    ensures r.request.Some? <==> Item(items, TOKEN) != "" && AppStylistId(data.stylistId, items).Some?
    ensures r.request.Some? ==>
      r.request.value == Request(POST, "/timeslots", SlotBody(AppStylistId(data.stylistId, items).value,
        CleanDate(data.date) + "T" + data.startTime + ":00", data, CleanDate(data.date)))
    ensures r.request.Some? && post.Answer? ==> r.outcome == Done(post.data)
    ensures r.request.Some? && post.Failure? ==> r.outcome == Raised(AppCreateSlotMessage(post.err, r.request.value.body, host))
  {
    if Item(items, TOKEN) == "" then Call(None, Raised(NO_TOKEN))
    else match AppStylistId(data.stylistId, items)
      case None => Call(None, Raised(NO_STYLIST))
      case Some(stylistId) =>
        var cleanDate := CleanDate(data.date);
        var body := SlotBody(stylistId, cleanDate + "T" + data.startTime + ":00", data, cleanDate);
        var request := Request(POST, "/timeslots", body);
        match post
        case Answer(d) => Call(Some(request), Done(d))
        case Failure(e) => Call(Some(request), Raised(AppCreateSlotMessage(e, body, host)))
  }

  // ---------------------------------------------------------------------
  // The zero-padded datetime of src/lib

  /** `String(Number(piece)).padStart(2, "0")`, with a missing piece read
      as `undefined`. */
  function PaddedPart(piece: Option<string>): string {
    match piece
    case None => "undefined"
    case Some(p) => PadStart2(NumberToString(ToNumber(p)))
  }

  /** `${cleanDate}T${HH}:${MM}:00.000Z` from a "H:M" time. */
  function PaddedDatetime(cleanDate: string, time: string): string {
    cleanDate + "T" + PaddedPart(Some(BeforeFirst(time, ':'))) + ":" + PaddedPart(SecondPiece(time, ':')) + ":00.000Z"
  }

  /** Two decimal digits for a number below 100. */
  function TwoDigits(n: nat): (r: string)
    requires n < 100
    ensures |r| == 2 && AllDigits(r)
  {
    [DigitChar(n / 10), DigitChar(n % 10)]
  }

  lemma TrimDigits(s: string)
    requires s != [] && AllDigits(s)
    ensures TrimEnd(TrimStart(s)) == s
  {
    assert !IsSpace(s[0]);
    assert TrimStart(s) == s;
    assert !IsSpace(s[|s| - 1]);
  }

  /** `Number` reads a string of decimal digits as its value. */
  lemma NumberOfDigits(s: string)
    requires s != [] && AllDigits(s)
    ensures ToNumber(s) == Finite(DigitsValue(s))
  {
    TrimDigits(s);
  }

  /** Padding a number's own rendering gives its two digits. */
  lemma {:induction false} PadNumber(n: nat)
    requires n < 100
    ensures PadStart2(NatToString(n)) == TwoDigits(n)
  {
    if n >= 10 {
      assert NatToString(n / 10) == [DigitChar(n / 10)];
    }
  }

  /** The part of a piece that is a number below 100, written with or
      without a leading zero, is padded to its two digits. */
  lemma {:induction false} PaddedPartOfNumber(n: nat)
    requires n < 100
    ensures PaddedPart(Some(NatToString(n))) == TwoDigits(n)
    ensures PaddedPart(Some(TwoDigits(n))) == TwoDigits(n)
  {
    NatToStringRoundTrip(n);
    NumberOfDigits(NatToString(n));
    PadNumber(n);
    var t := TwoDigits(n);
    NumberOfDigits(t);
    assert t[..1] == [DigitChar(n / 10)];
    assert DigitsValue(t) == n;
  }

  lemma DigitsHaveNoColon(s: string)
    requires AllDigits(s)
    ensures ':' !in s
  {
    forall i | 0 <= i < |s|
      ensures s[i] != ':'
    {
      assert IsDigit(s[i]);
    }
  }

  /** An "H:M" time of numbers below 100 becomes "HH:MM" in the datetime,
      and a datetime time that is already padded stays as it is: padding is
      idempotent. */
  lemma {:induction false} PaddedDatetimeOfNumbers(cleanDate: string, h: nat, m: nat)
    requires h < 100 && m < 100
    ensures PaddedDatetime(cleanDate, NatToString(h) + ":" + NatToString(m)) ==
      cleanDate + "T" + TwoDigits(h) + ":" + TwoDigits(m) + ":00.000Z"
    ensures PaddedDatetime(cleanDate, TwoDigits(h) + ":" + TwoDigits(m)) ==
      cleanDate + "T" + TwoDigits(h) + ":" + TwoDigits(m) + ":00.000Z"
  {
    PaddedPartOfNumber(h);
    PaddedPartOfNumber(m);
    SplitAtColon(NatToString(h), NatToString(m));
    SplitAtColon(TwoDigits(h), TwoDigits(m));
  }

  /** Splitting "a:b" at ':' when neither side has a colon. */
  lemma SplitAtColon(a: string, b: string)
    requires AllDigits(a) && AllDigits(b)
    ensures BeforeFirst(a + ":" + b, ':') == a
    ensures SecondPiece(a + ":" + b, ':') == Some(b)
  {
    DigitsHaveNoColon(a);
    DigitsHaveNoColon(b);
    var s := a + ":" + b;
    BeforeFirstOfPrefix(a, ':', ":" + b);
    assert s[|a| + 1..] == b;
  }

  /** createTimeSlot of src/lib: no token check; the stylist id falls back
      to the current one (its lookup lives in a module outside this model,
      so it is a parameter); hour and minute are zero-padded and the
      datetime is marked UTC. The end datetime is computed but never sent,
      so it is not modelled. */
  function LibCreateTimeSlot(data: CreateSlotData, currentStylistId: JsValue, post: Response<JsValue>, host: Host): (r: Call<JsValue>)
    ensures !Truthy(Or(Str(data.stylistId), currentStylistId)) ==> r == Call(None, Raised(NO_STYLIST))
    ensures r.request.Some? <==> Truthy(Or(Str(data.stylistId), currentStylistId))
    ensures r.request.Some? ==> r.request.value == Request(POST, "/timeslots",
      SlotBody(Or(Str(data.stylistId), currentStylistId), PaddedDatetime(CleanDate(data.date), data.startTime), data, CleanDate(data.date)))
    ensures r.request.Some? && post.Answer? ==> r.outcome == Done(post.data)
    ensures r.request.Some? && post.Failure? ==> r.outcome == Raised(LibCreateSlotMessage(post.err, r.request.value.body, host))
  {
    var stylistId := Or(Str(data.stylistId), currentStylistId);
    if !Truthy(stylistId) then Call(None, Raised(NO_STYLIST))
    else
      var cleanDate := CleanDate(data.date);
      var body := SlotBody(stylistId, PaddedDatetime(cleanDate, data.startTime), data, cleanDate);
      var request := Request(POST, "/timeslots", body);
      match post
      case Answer(d) => Call(Some(request), Done(d))
      case Failure(e) => Call(Some(request), Raised(LibCreateSlotMessage(e, body, host)))
  }

  // ---------------------------------------------------------------------
  // getTimeSlotsByStylist, in both variants

  function SlotsByStylistMessage(e: HttpError): string {
    if HasStatus(e, 401) then UNAUTHORIZED
    else if HasStatus(e, 404) then "No time slots found for this stylist"
    else if IsNetworkError(e) then NETWORK_ERROR
    else OrElse(e.message, "Failed to fetch time slots")
  }

  /** getTimeSlotsByStylist: the given id, else the current one; without
      either it raises before any request. */
  function LibTimeSlotsByStylist(provided: string, currentStylistId: JsValue, get: Response<JsValue>): (r: Call<JsValue>)
    ensures !Truthy(Or(Str(provided), currentStylistId)) ==> r == Call(None, Raised(NO_STYLIST))
    ensures r.request.Some? <==> Truthy(Or(Str(provided), currentStylistId))
    ensures r.request.Some? ==>
      r.request.value == Request(GET, "/timeslots/provider/" + ToStr(Or(Str(provided), currentStylistId)), Undefined)
    ensures r.request.Some? && get.Answer? ==> r.outcome == Done(get.data)
    ensures r.request.Some? && get.Failure? ==> r.outcome == Raised(SlotsByStylistMessage(get.err))
  {
    var stylistId := Or(Str(provided), currentStylistId);
    if !Truthy(stylistId) then Call(None, Raised(NO_STYLIST))
    else
      var request := Request(GET, "/timeslots/provider/" + ToStr(stylistId), Undefined);
      match get
      case Answer(d) => Call(Some(request), Done(d))
      case Failure(e) => Call(Some(request), Raised(SlotsByStylistMessage(e)))
  }

  /** Each failure class of the listing gets its own message; 401 wins over
      404 and both win over the network code; the fallback is the backend's
      message when it sent one. */
  lemma SlotsByStylistClasses(e: HttpError)
    ensures HasStatus(e, 401) ==> SlotsByStylistMessage(e) == UNAUTHORIZED
    ensures HasStatus(e, 404) ==> SlotsByStylistMessage(e) == "No time slots found for this stylist"
    ensures !HasStatus(e, 401) && !HasStatus(e, 404) && IsNetworkError(e) ==> SlotsByStylistMessage(e) == NETWORK_ERROR
    ensures !HasStatus(e, 401) && !HasStatus(e, 404) && !IsNetworkError(e) && e.message != "" ==> SlotsByStylistMessage(e) == e.message
    ensures SlotsByStylistMessage(e) != ""
  {
  }

  /** getTimeSlotsByStylist of src/app: the token check comes first, then
      the given id, else the stored one; the failures are worded as in the
      src/lib variant. */
  function AppTimeSlotsByStylist(provided: string, items: map<string, string>, get: Response<JsValue>): (r: Call<JsValue>)
    ensures Item(items, TOKEN) == "" ==> r == Call(None, Raised(NO_TOKEN))
    ensures Item(items, TOKEN) != "" && AppStylistId(provided, items).None? ==> r == Call(None, Raised(NO_STYLIST))
    ensures r.request.Some? <==> Item(items, TOKEN) != "" && AppStylistId(provided, items).Some?
    ensures r.request.Some? ==>
      r.request.value == Request(GET, "/timeslots/provider/" + ToStr(AppStylistId(provided, items).value), Undefined)
    ensures r.request.Some? && get.Answer? ==> r.outcome == Done(get.data)
    ensures r.request.Some? && get.Failure? ==> r.outcome == Raised(SlotsByStylistMessage(get.err))
  {
    if Item(items, TOKEN) == "" then Call(None, Raised(NO_TOKEN))
    else match AppStylistId(provided, items)
      case None => Call(None, Raised(NO_STYLIST))
      case Some(stylistId) =>
        var request := Request(GET, "/timeslots/provider/" + ToStr(stylistId), Undefined);
        match get
        case Answer(d) => Call(Some(request), Done(d))
        case Failure(e) => Call(Some(request), Raised(SlotsByStylistMessage(e)))
  }

  /** The stored id as the JavaScript value getCurrentStylistId returns, with
      NaN, which no request can carry, read as the equally falsy null. */
  function StoredIdValue(items: map<string, string>): JsValue {
    match GetCurrentStylistId(items)
    case Some(Finite(n)) => Num(n)
    case _ => Null
  }

  /** Once a token is stored, the src/app listing is the src/lib listing
      given the stored id as the current one. */
  lemma SlotsByStylistVariantsAgree(provided: string, items: map<string, string>, get: Response<JsValue>)
    requires Item(items, TOKEN) != ""
    ensures AppTimeSlotsByStylist(provided, items, get) == LibTimeSlotsByStylist(provided, StoredIdValue(items), get)
  {
  }
}
