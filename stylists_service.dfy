/** The stylist-services helpers of src/app/api/stylists-service.ts that do
    more than pass a request through: the client-side filter of a
    stylist's services and the payload that adds a service to a stylist. */
module StylistsService {
  import opened Js
  import opened Seqs
  import opened Http

  /** `item.stylistId === id || item.stylist_id === id`, for an item whose
      properties can be read. */
  predicate BelongsTo(item: JsValue, stylistId: int) {
    StrictEquals(Get(item, "stylistId"), Num(stylistId)) || StrictEquals(Get(item, "stylist_id"), Num(stylistId))
  }

  function BelongsToTest(stylistId: int): JsValue -> bool {
    (item: JsValue) => BelongsTo(item, stylistId)
  }

  /** Reading a property of null or undefined throws a TypeError. */
  predicate Unreadable(item: JsValue) {
    item.Null? || item.Undefined?
  }

  const TYPE_ERROR: string := "TypeError"

  function ServicesRequest(stylistId: int): Request {
    Request(GET, "/stylist-services?stylist_id=" + IntToString(stylistId), Undefined)
  }

  /** getServicesForStylist: a non-array answer gives no services; an array
      is filtered to the items of the stylist, unless one of its items is
      null or undefined, whose property read throws; a failed request is
      rethrown. */
  function GetServicesForStylist(stylistId: int, response: Response<JsValue>): (r: Call<seq<JsValue>>)
    ensures r.request == Some(ServicesRequest(stylistId))
    ensures response.Failure? ==> r.outcome == Rethrown(response.err)
    ensures response.Answer? && !response.data.Arr? ==> r.outcome == Done([])
    ensures response.Answer? && response.data.Arr? ==>
      (r.outcome.Raised? <==> exists i :: 0 <= i < |response.data.items| && Unreadable(response.data.items[i]))
    ensures r.outcome.Done? && response.Answer? && response.data.Arr? ==>
      forall x :: x in r.outcome.value <==> x in response.data.items && BelongsTo(x, stylistId)
  {
    var request := ServicesRequest(stylistId);
    match response
    case Failure(e) => Call(Some(request), Rethrown(e))
    case Answer(data) =>
      if !data.Arr? then Call(Some(request), Done([]))
      else if exists i :: 0 <= i < |data.items| && Unreadable(data.items[i]) then Call(Some(request), Raised(TYPE_ERROR))
      else Call(Some(request), Done(Filter(data.items, BelongsToTest(stylistId))))
  }

  /** The filter keeps every matching item as often as it occurs, in order,
      and nothing else. */
  lemma {:induction false} ServicesForStylistExactly(stylistId: int, items: seq<JsValue>, x: JsValue)
    requires forall i :: 0 <= i < |items| ==> !Unreadable(items[i])
    ensures GetServicesForStylist(stylistId, Answer(Arr(items))).outcome == Done(Filter(items, BelongsToTest(stylistId)))
    ensures multiset(Filter(items, BelongsToTest(stylistId)))[x] == if BelongsTo(x, stylistId) then multiset(items)[x] else 0
  {
    FilterMultiplicity(items, BelongsToTest(stylistId), x);
  }

  /** Strict equality: an item whose stylist ids are strings never belongs
      to a stylist, even when the text is that stylist's number. */
  lemma StringIdNeverMatches(stylistId: int, fields: map<string, JsValue>)
    requires "stylistId" in fields ==> fields["stylistId"].Str?
    requires "stylist_id" in fields ==> fields["stylist_id"].Str?
    ensures !BelongsTo(Obj(fields), stylistId)
    ensures !BelongsTo(Obj(fields["stylistId" := Str(IntToString(stylistId))]), stylistId)
  {
  }

  /** addServiceToStylist: POST exactly the stylist, the service, the price
      and the duration; an omitted price or duration is sent as undefined. */
  function AddServiceToStylist(stylistId: int, serviceId: int, price: Option<int>, duration: Option<int>): (r: Request)
    ensures r.verb == POST && r.path == "/stylist-services"
    ensures r.body.Obj? && r.body.fields.Keys == {"stylistId", "serviceId", "price", "duration"}
    ensures r.body.fields["stylistId"] == Num(stylistId) && r.body.fields["serviceId"] == Num(serviceId)
    ensures r.body.fields["price"] == (if price.Some? then Num(price.value) else Undefined)
    ensures r.body.fields["duration"] == (if duration.Some? then Num(duration.value) else Undefined)
  {
    Request(POST, "/stylist-services", Obj(map[
      "stylistId" := Num(stylistId),
      "serviceId" := Num(serviceId),
      "price" := if price.Some? then Num(price.value) else Undefined,
      "duration" := if duration.Some? then Num(duration.value) else Undefined]))
  }
}
