/** The booking record as the backend sends it, and the reference resolution
    that BookingList, BookingManager and BookingCalendar each define in the
    same words: the service name, the start time and the date fallback chain. */
module BookingModel {
  import opened Js
  import opened Platform

  // The values of the `BookingStatus` enumeration.
  const PENDING: string := "PENDING"
  const CONFIRMED: string := "CONFIRMED"
  const CANCELLED: string := "CANCELLED"
  const COMPLETED: string := "COMPLETED"
  const RESCHEDULED: string := "RESCHEDULED"

  const UNKNOWN_SERVICE: string := "Unknown Service"

  /** A booking record. `serviceId` and `slotId` keep their JSON value, since
      the backend does not always send strings; `service` is the name inside
      an embedded service object, when there is one with a `name`. String
      fields the record may lack are "" when absent. `status` is any string:
      the type admits more than the five enumerated values. */
  datatype Booking = Booking(
    id: string,
    serviceId: JsValue,
    slotId: JsValue,
    service: Option<string>,
    customerName: string,
    clientName: string,
    status: string,
    bookedAt: string,
    createdAt: string,
    updatedAt: string,
    date: string,
    slotDate: string,
    serviceDisplayName: string,
    serviceName: string)

  /** `id && cache[id]`: the cached string for a truthy id whose entry is
      truthy, and "" otherwise. Property keys are the id's string form. */
  function Cached(id: JsValue, cache: map<string, string>): (r: string)
    ensures r != "" <==> Truthy(id) && ToStr(id) in cache && cache[ToStr(id)] != ""
    ensures r != "" ==> r == cache[ToStr(id)]
  {
    if Truthy(id) && ToStr(id) in cache then cache[ToStr(id)] else ""
  }

  /** getServiceName: the cached name for the service id, else the embedded
      service's name, else "Unknown Service". */
  function ServiceName(b: Booking, serviceNames: map<string, string>): (r: string)
    ensures Cached(b.serviceId, serviceNames) != "" ==> r == Cached(b.serviceId, serviceNames)
    ensures Cached(b.serviceId, serviceNames) == "" && b.service.Some? ==> r == b.service.value
    ensures Cached(b.serviceId, serviceNames) == "" && b.service.None? ==> r == UNKNOWN_SERVICE
  {
    var cached := Cached(b.serviceId, serviceNames);
    if cached != "" then cached
    else if b.service.Some? then b.service.value
    else UNKNOWN_SERVICE
  }

  /** getStartTime: the cached start time of the booking's slot, or "". */
  function StartTime(b: Booking, slotTimes: map<string, string>): (r: string)
    ensures r != "" <==> Truthy(b.slotId) && ToStr(b.slotId) in slotTimes && slotTimes[ToStr(b.slotId)] != ""
    ensures r != "" ==> r == slotTimes[ToStr(b.slotId)]
  {
    Cached(b.slotId, slotTimes)
  }

  /** The string a booking's date is read from: the first non-empty of the
      start time, bookedAt, createdAt and updatedAt. */
  function DateSource(b: Booking, slotTimes: map<string, string>): (r: string)
    ensures r == "" <==> StartTime(b, slotTimes) == "" && b.bookedAt == "" && b.createdAt == "" && b.updatedAt == ""
    ensures r in {StartTime(b, slotTimes), b.bookedAt, b.createdAt, b.updatedAt}
    ensures StartTime(b, slotTimes) != "" ==> r == StartTime(b, slotTimes)
    ensures StartTime(b, slotTimes) == "" && b.bookedAt != "" ==> r == b.bookedAt
    ensures StartTime(b, slotTimes) == "" && b.bookedAt == "" && b.createdAt != "" ==> r == b.createdAt
    ensures StartTime(b, slotTimes) == "" && b.bookedAt == "" && b.createdAt == "" ==> r == b.updatedAt
  {
    OrElse(StartTime(b, slotTimes), OrElse(b.bookedAt, OrElse(b.createdAt, b.updatedAt)))
  }

  /** formatBookingDate without the locale formatting: the instant that gets
      formatted, or None where the component shows the empty string (no date
      source, or one that does not parse). */
  function BookingInstant(b: Booking, slotTimes: map<string, string>, host: Host): (r: Option<int>)
    ensures r.Some? <==> DateSource(b, slotTimes) != "" && host.parseDate(DateSource(b, slotTimes)).Some?
    ensures r.Some? ==> r == host.parseDate(DateSource(b, slotTimes))
  {
    var source := DateSource(b, slotTimes);
    if source == "" then None else host.parseDate(source)
  }

  /** The customer cell: customerName, else client_name, else "Client". */
  function CustomerLabel(b: Booking): (r: string)
    ensures r != ""
    ensures r == b.customerName || r == b.clientName || r == "Client"
    ensures b.customerName != "" ==> r == b.customerName
    ensures b.customerName == "" && b.clientName != "" ==> r == b.clientName
    ensures b.customerName == "" && b.clientName == "" ==> r == "Client"
  {
    OrElse(b.customerName, OrElse(b.clientName, "Client"))
  }

  /** A booking with no resolvable service or slot reference and no
      timestamps shows "Unknown Service", no start time and no date. */
  lemma UnresolvedBookingFallsBack(b: Booking, serviceNames: map<string, string>, slotTimes: map<string, string>, host: Host)
    requires !Truthy(b.serviceId) && b.service.None?
    requires !Truthy(b.slotId) && b.bookedAt == "" && b.createdAt == "" && b.updatedAt == ""
    ensures ServiceName(b, serviceNames) == UNKNOWN_SERVICE
    ensures StartTime(b, slotTimes) == ""
    ensures BookingInstant(b, slotTimes, host) == None
  {
  }
}
