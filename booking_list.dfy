/** The bookings table: the status-gated action buttons, the status badge and
    the filtered, searched and sorted projection of the bookings it is given
    (src/components/bookings/BookingList.tsx). */
module BookingList {
  import opened Js
  import opened Seqs
  import opened Platform
  import opened BookingModel

  // ---------------------------------------------------------------------
  // Status-gated actions

  datatype Action = Confirm | Reschedule | Cancel | Complete

  /** The `disabled` expression of each action button, negated. */
  predicate Enabled(a: Action, status: string) {
    match a
    case Confirm => !(status == CONFIRMED || status == COMPLETED || status == RESCHEDULED)
    case Reschedule => !(status == COMPLETED || status == RESCHEDULED)
    case Cancel => !(status == COMPLETED || status == CANCELLED)
    case Complete => !(status == COMPLETED || (status != CONFIRMED && status != RESCHEDULED))
  }

  /** The buttons of a row that can be clicked. */
  function AllowedActions(status: string): (r: set<Action>)
    ensures forall a :: a in r <==> Enabled(a, status)
  {
    (if Enabled(Confirm, status) then {Confirm} else {}) +
    (if Enabled(Reschedule, status) then {Reschedule} else {}) +
    (if Enabled(Cancel, status) then {Cancel} else {}) +
    (if Enabled(Complete, status) then {Complete} else {})
  }

  /** The whole table of enabled actions, status by status. A cancelled
      booking can still be confirmed and rescheduled, and a status outside
      the enumeration behaves like PENDING. */
  lemma {:induction false} ActionTable(status: string)
    ensures status == PENDING ==> AllowedActions(status) == {Confirm, Reschedule, Cancel}
    ensures status == CONFIRMED ==> AllowedActions(status) == {Reschedule, Cancel, Complete}
    ensures status == CANCELLED ==> AllowedActions(status) == {Confirm, Reschedule}
    ensures status == COMPLETED ==> AllowedActions(status) == {}
    ensures status == RESCHEDULED ==> AllowedActions(status) == {Cancel, Complete}
    ensures status !in {PENDING, CONFIRMED, CANCELLED, COMPLETED, RESCHEDULED} ==>
      AllowedActions(status) == {Confirm, Reschedule, Cancel}
  {
    var r := AllowedActions(status);
    if status == PENDING {
      assert r == {Confirm, Reschedule, Cancel} by {
        assert !Enabled(Complete, status);
        assert Confirm in r && Reschedule in r && Cancel in r && Complete !in r;
      }
    } else if status == CONFIRMED {
      assert r == {Reschedule, Cancel, Complete} by {
        assert Confirm !in r && Reschedule in r && Cancel in r && Complete in r;
      }
    } else if status == CANCELLED {
      assert r == {Confirm, Reschedule} by {
        assert Confirm in r && Reschedule in r && Cancel !in r && Complete !in r;
      }
    } else if status == COMPLETED {
      assert r == {} by {
        assert Confirm !in r && Reschedule !in r && Cancel !in r && Complete !in r;
      }
    } else if status == RESCHEDULED {
      assert r == {Cancel, Complete} by {
        assert Confirm !in r && Reschedule !in r && Cancel in r && Complete in r;
      }
    } else {
      assert r == {Confirm, Reschedule, Cancel} by {
        assert Confirm in r && Reschedule in r && Cancel in r && Complete !in r;
      }
    }
  }

  /** COMPLETED is the only status with no action left, and whenever
      Complete is offered, Cancel is offered too. */
  lemma CompletedIsOnlyTerminal(status: string)
    ensures AllowedActions(status) == {} <==> status == COMPLETED
    ensures Complete in AllowedActions(status) ==> Cancel in AllowedActions(status)
  {
    if status != COMPLETED {
      assert Reschedule in AllowedActions(status) || Cancel in AllowedActions(status);
    }
  }

  // ---------------------------------------------------------------------
  // Status badge

  datatype Badge = Badge(variant: string, caption: string)

  /** getStatusBadge: the four configured statuses get their own variant and
      label; any other status, RESCHEDULED included, shows itself as the
      label of a "secondary" badge. */
  function StatusBadge(status: string): (r: Badge)
    ensures status == CONFIRMED ==> r == Badge("default", "Confirmed")
    ensures status == CANCELLED ==> r == Badge("destructive", "Cancelled")
    ensures status == COMPLETED ==> r == Badge("outline", "Completed")
    ensures status == PENDING ==> r == Badge("secondary", "Pending")
    ensures status !in {CONFIRMED, CANCELLED, COMPLETED, PENDING} ==> r == Badge("secondary", status)
  {
    if status == CONFIRMED then Badge("default", "Confirmed")
    else if status == CANCELLED then Badge("destructive", "Cancelled")
    else if status == COMPLETED then Badge("outline", "Completed")
    else if status == PENDING then Badge("secondary", "Pending")
    else Badge("secondary", status)
  }

  /** Only CANCELLED is shown as destructive, and the raw status is shown
      exactly when it is not one of the four configured ones. */
  lemma BadgeDistinguishesCancelled(status: string)
    ensures StatusBadge(status).variant == "destructive" <==> status == CANCELLED
    ensures StatusBadge(status).caption == status <==> status !in {CONFIRMED, CANCELLED, COMPLETED, PENDING}
  {
  }

  // ---------------------------------------------------------------------
  // Filtering and search

  /** The filter state: "" means no status filter and no search. */
  datatype Filters = Filters(status: string, search: string)

  datatype SortBy = ByBookedAt | ByCustomerName

  function HasStatus(status: string): Booking -> bool {
    (b: Booking) => b.status == status
  }

  /** The search test on an already lower-cased query. */
  predicate MatchesSearch(b: Booking, query: string, serviceNames: map<string, string>) {
    Contains(Lower(b.customerName), query) ||
    Contains(Lower(b.clientName), query) ||
    Contains(Lower(ServiceName(b, serviceNames)), query)
  }

  function Matches(query: string, serviceNames: map<string, string>): Booking -> bool {
    (b: Booking) => MatchesSearch(b, query, serviceNames)
  }

  /** The bookings filteredBookings keeps, in their original order. */
  function Selected(bookings: seq<Booking>, filters: Filters, serviceNames: map<string, string>): seq<Booking> {
    var byStatus := if filters.status != "" then Filter(bookings, HasStatus(filters.status)) else bookings;
    if filters.search != "" then Filter(byStatus, Matches(Lower(filters.search), serviceNames)) else byStatus
  }

  /** Whether one booking passes both filters. */
  predicate Passes(b: Booking, filters: Filters, serviceNames: map<string, string>) {
    (filters.status == "" || b.status == filters.status) &&
    (filters.search == "" || MatchesSearch(b, Lower(filters.search), serviceNames))
  }

  /** A booking is kept iff its status equals the selected one (when one is
      selected) and the lower-cased query occurs in its lower-cased customer
      name, client name or service name (when a query is given); every kept
      booking is kept as often as it occurs, and no others. */
  lemma {:induction false} SelectedExactly(bookings: seq<Booking>, filters: Filters, serviceNames: map<string, string>, b: Booking)
    ensures b in Selected(bookings, filters, serviceNames) <==> b in bookings && Passes(b, filters, serviceNames)
    ensures multiset(Selected(bookings, filters, serviceNames))[b] ==
      if Passes(b, filters, serviceNames) then multiset(bookings)[b] else 0
  {
    var byStatus := if filters.status != "" then Filter(bookings, HasStatus(filters.status)) else bookings;
    if filters.status != "" {
      FilterMultiplicity(bookings, HasStatus(filters.status), b);
    }
    if filters.search != "" {
      FilterMultiplicity(byStatus, Matches(Lower(filters.search), serviceNames), b);
    }
  }

  /** With neither filter set, every booking is kept in place. */
  lemma NoFiltersKeepsAll(bookings: seq<Booking>, serviceNames: map<string, string>)
    ensures Selected(bookings, Filters("", ""), serviceNames) == bookings
  {
  }

  // ---------------------------------------------------------------------
  // Sorting

  /** A sort key: the parsed date (None for a date that does not parse, which
      makes the comparator's difference NaN), or the collation key of the
      name. */
  datatype SortKey = TimeKey(instant: Option<int>) | NameKey(collation: seq<int>)

  datatype SortContext = SortContext(sortBy: SortBy, slotTimes: map<string, string>, host: Host)

  /** The name the customer sort compares: customerName, else client_name, else "". */
  function SortName(b: Booking): string {
    OrElse(b.customerName, b.clientName)
  }

  function KeyOf(b: Booking, ctx: SortContext): (k: SortKey)
    ensures ctx.sortBy == ByBookedAt ==> k == TimeKey(BookingInstant(b, ctx.slotTimes, ctx.host))
    ensures ctx.sortBy == ByCustomerName ==> k == NameKey(ctx.host.collationKey(SortName(b)))
  {
    match ctx.sortBy
    case ByBookedAt => TimeKey(BookingInstant(b, ctx.slotTimes, ctx.host))
    case ByCustomerName => NameKey(ctx.host.collationKey(SortName(b)))
  }

  /** The order the comparator induces: ascending time, ascending collation.
      Unparseable dates are put first; keys of the two kinds never meet in
      one sort, and time keys are put before name keys only to keep the
      order total. */
  predicate KeyLe(x: SortKey, y: SortKey) {
    match (x, y)
    case (TimeKey(None), _) => true
    case (TimeKey(Some(_)), TimeKey(None)) => false
    case (TimeKey(Some(s)), TimeKey(Some(t))) => s <= t
    case (TimeKey(_), NameKey(_)) => true
    case (NameKey(_), TimeKey(_)) => false
    case (NameKey(s), NameKey(t)) => LexLe(s, t)
  }

  predicate Le(ctx: SortContext, x: Booking, y: Booking) {
    KeyLe(KeyOf(x, ctx), KeyOf(y, ctx))
  }

  lemma {:induction false} LeTotal(ctx: SortContext, x: Booking, y: Booking)
    ensures Le(ctx, x, y) || Le(ctx, y, x)
  {
    match (KeyOf(x, ctx), KeyOf(y, ctx))
    case (NameKey(s), NameKey(t)) => LexLeTotal(s, t);
    case (_, _) =>
  }

  lemma {:induction false} LeTrans(ctx: SortContext, x: Booking, y: Booking, z: Booking)
    requires Le(ctx, x, y) && Le(ctx, y, z)
    ensures Le(ctx, x, z)
  {
    match (KeyOf(x, ctx), KeyOf(y, ctx), KeyOf(z, ctx))
    case (NameKey(s), NameKey(t), NameKey(u)) => LexLeTrans(s, t, u);
    case (_, _, _) =>
  }

  predicate SortedBy(s: seq<Booking>, ctx: SortContext) {
    forall i, j :: 0 <= i < j < |s| ==> Le(ctx, s[i], s[j])
  }

  /** `Array.prototype.sort` with the date or name comparator, in place. */
  method SortInPlace(a: array<Booking>, ctx: SortContext)
    modifies a
    ensures SortedBy(a[..], ctx)
    ensures multiset(a[..]) == multiset(old(a[..]))
  {
    var i := 0;
    while i < a.Length
      invariant 0 <= i <= a.Length
      invariant forall p, q :: 0 <= p < q < i ==> Le(ctx, a[p], a[q])
      invariant multiset(a[..]) == multiset(old(a[..]))
    {
      InsertAt(a, i, ctx);
      i := i + 1;
    }
  }

  /** During an insertion step: `s[..i + 1]` is sorted once the moving
      element at `j` is ignored. */
  predicate SortedExcept(ctx: SortContext, s: seq<Booking>, i: int, j: int)
    requires 0 <= j <= i < |s|
  {
    forall p, q :: 0 <= p < q <= i && p != j && q != j ==> Le(ctx, s[p], s[q])
  }

  /** The moving element at `j` is below everything after it up to `i`. */
  predicate BelowRest(ctx: SortContext, s: seq<Booking>, i: int, j: int)
    requires 0 <= j <= i < |s|
  {
    forall q :: j < q <= i ==> Le(ctx, s[j], s[q])
  }

  /** Swapping the moving element with a greater left neighbour keeps both
      facts, one place further left. */
  lemma SwapStep(ctx: SortContext, s: seq<Booking>, i: int, j: int)
    requires 0 < j <= i < |s|
    requires SortedExcept(ctx, s, i, j) && BelowRest(ctx, s, i, j)
    requires !Le(ctx, s[j - 1], s[j])
    ensures SortedExcept(ctx, s[j - 1 := s[j]][j := s[j - 1]], i, j - 1)
    ensures BelowRest(ctx, s[j - 1 := s[j]][j := s[j - 1]], i, j - 1)
  {
    LeTotal(ctx, s[j - 1], s[j]);
  }

  /** Once the moving element meets a smaller-or-equal neighbour (or the
      front), `s[..i + 1]` is sorted. */
  lemma InsertDone(ctx: SortContext, s: seq<Booking>, i: int, j: int)
    requires 0 <= j <= i < |s|
    requires SortedExcept(ctx, s, i, j) && BelowRest(ctx, s, i, j)
    requires j == 0 || Le(ctx, s[j - 1], s[j])
    ensures forall p, q :: 0 <= p < q <= i ==> Le(ctx, s[p], s[q])
  {
    forall p, q | 0 <= p < q <= i
      ensures Le(ctx, s[p], s[q])
    {
      if q == j && p < j - 1 {
        LeTrans(ctx, s[p], s[j - 1], s[j]);
      }
    }
  }

  /** One insertion step: moves `a[i]` left past every greater element, so
      that `a[..i + 1]` is sorted when `a[..i]` was. */
  method InsertAt(a: array<Booking>, i: int, ctx: SortContext)
    requires 0 <= i < a.Length
    requires forall p, q :: 0 <= p < q < i ==> Le(ctx, a[p], a[q])
    modifies a
    ensures forall p, q :: 0 <= p < q <= i ==> Le(ctx, a[p], a[q])
    ensures multiset(a[..]) == multiset(old(a[..]))
  {
    var j := i;
    while j > 0 && !Le(ctx, a[j - 1], a[j])
      invariant 0 <= j <= i
      invariant SortedExcept(ctx, a[..], i, j) && BelowRest(ctx, a[..], i, j)
      invariant multiset(a[..]) == multiset(old(a[..]))
    {
      ghost var before := a[..];
      SwapStep(ctx, before, i, j);
      a[j - 1], a[j] := a[j], a[j - 1];
      assert a[..] == before[j - 1 := before[j]][j := before[j - 1]];
      j := j - 1;
    }
    InsertDone(ctx, a[..], i, j);
  }

  /** The list's own state: the status and search filters and the sort. */
  class BookingListView {
    var filters: Filters
    var sortBy: SortBy

    constructor()
      ensures filters == Filters("", "") && sortBy == ByBookedAt
    {
      filters := Filters("", "");
      sortBy := ByBookedAt;
    }

    method SetStatusFilter(status: string)
      modifies this
      ensures filters == old(filters).(status := status) && sortBy == old(sortBy)
    {
      filters := filters.(status := status);
    }

    method SetSearch(search: string)
      modifies this
      ensures filters == old(filters).(search := search) && sortBy == old(sortBy)
    {
      filters := filters.(search := search);
    }

    method SetSortBy(order: SortBy)
      modifies this
      ensures sortBy == order && filters == old(filters)
    {
      sortBy := order;
    }

    /** filteredBookings: filter by status, then by search, then sort. With
        no filter in effect no copy is made, so the caller's own array is
        what gets sorted and returned; otherwise the caller's array is left
        alone. Either way the result holds exactly the selected bookings. */
    method FilteredBookings(bookings: array<Booking>, serviceNames: map<string, string>,
                            slotTimes: map<string, string>, host: Host)
      returns (filtered: array<Booking>)
      modifies bookings
      ensures filters.status == "" && filters.search == "" ==> filtered == bookings
      ensures filters.status != "" || filters.search != "" ==>
        fresh(filtered) && bookings[..] == old(bookings[..])
      ensures multiset(filtered[..]) == multiset(Selected(old(bookings[..]), filters, serviceNames))
      ensures SortedBy(filtered[..], SortContext(sortBy, slotTimes, host))
    {
      filtered := bookings;
      if filters.status != "" {
        var kept := Filter(filtered[..], HasStatus(filters.status));
        filtered := new Booking[|kept|](k requires 0 <= k < |kept| => kept[k]);
        assert filtered[..] == kept;
      }
      if filters.search != "" {
        var kept := Filter(filtered[..], Matches(Lower(filters.search), serviceNames));
        filtered := new Booking[|kept|](k requires 0 <= k < |kept| => kept[k]);
        assert filtered[..] == kept;
      }
      assert filtered[..] == Selected(old(bookings[..]), filters, serviceNames);
      SortInPlace(filtered, SortContext(sortBy, slotTimes, host));
    }
  }
}
