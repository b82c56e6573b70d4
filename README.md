# Salon booking dashboard — a Dafny model

This project models the client-side core of the glamlink stylist dashboard. That is the Next.js/React front end a salon stylist uses to see, filter and act on their bookings.

The model covers:

- **Booking views.**
  - The list view: status and search filters, two sort orders, status badges and the buttons each status enables.
  - The month calendar: the six-week grid, month navigation, bookings per day and status colours.
  - The "upcoming in the next seven days" table: window, countdown and urgency colour.
- **The booking manager** (`BookingManager`). It loads a stylist's bookings, confirms, cancels, completes and reschedules them, and computes the dashboard counters.
- **The booking API helpers.**
  - `fetchBookings`, which loads bookings and then fills the service-name and slot-time caches.
  - `updateBookingStatus`, `rescheduleBooking` and `cancelBooking`, including how each turns a failed request into an error.
- **The time-slot helpers.**
  - `fetchSlotTimes`: the slot-id → start-time cache.
  - `createTimeSlot` and `getTimeSlotsByStylist`, in both the `src/app/api` and `src/lib/api` variants.
- **Browser-storage authentication.**
  - `login`, with its three branches: token, temporary session and profile lookup.
  - `getCurrentStylistId`, `getCurrentUser`, `isLoggedIn` and `logout`.
  - The React auth provider that restores, refreshes, logs in and logs out a user.
- **The sign-up form**: ordered validation, payload and greeting.
- **The stylist-services helpers**: the client-side filter and the add payload.

## How the model works

- **JavaScript values** are the datatype `Js.JsValue` (undefined, null, booleans, integers, strings, arrays, objects).
  - JavaScript truthiness, `||`, `?.` property reads, `===`, `parseInt`, `Number`, `String.prototype.split(...)[0]` and `padStart(2, "0")` are written out in module `Js`.
  - An optional string field of a booking or slot is a plain string, with `""` standing for an absent one. This is equivalent under `||` and `?.includes`.
- **`localStorage`** is a `map<string, string>`, held by the class `Auth.LocalStorage`.
- **The network** is never called.
  - A request is a value (`Http.Request`: verb, path, JSON body).
  - Its answer is a parameter (`Http.Response`: the data, or an axios-shaped error with `code`, `response.status` and `response.data`).
  - A helper returns `Http.Call`: the request it would send and its outcome (a value, an `Error` it raises, or the original error rethrown).
- **The host** (`Platform.Host`) is a parameter bundling the environment-dependent functions:
  - date parsing;
  - the local calendar date of an instant;
  - `toISOString` and `toTimeString` text;
  - the collation key behind `localeCompare`;
  - `JSON.stringify` and `JSON.parse`.
- **The current time** is a parameter (`now`, in milliseconds).
- **React components** whose state changes step by step are classes whose fields are that state:
  - `BookingList.BookingListView`
  - `BookingCalendar.CalendarState`
  - `BookingManager.Manager`
  - `AuthContext.AuthProvider`
  - `SignUp.SignUpForm`
- **Side effects of a component.**
  - The booking requests it sends (the bookings GET and the status, reschedule and delete calls) are appended to a `requests` field.
  - The toasts it shows are appended to a `toasts` field.
- **Setter callbacks.** `fetchBookings` receives React setter callbacks. Its model returns the sequence of setter calls it makes (`BookingsApi.SetterCall`), and `BookingManager.Manager.ApplySetters` applies them to the component state.
- **Loops.**
  - The in-place sort of the filtered list is an insertion sort on an `array`.
  - The calendar grid and the slot-time merge are `while` loops.
  - Each is proved against a specification function.

Behaviours of the code that a reader might not expect, which the model keeps:

- **Cancelled bookings stay actionable.** A cancelled booking can still be confirmed and rescheduled: the list only disables Cancel and Complete for it (`BookingList.ActionTable`).
- **Month navigation keeps the day of the month.** The calendar's arrows call `setMonth` on the current date, so from the 29th to the 31st the date runs past a shorter month. In 2023, "next" from 31 January shows March, and "prev" from 31 March stays on March (`BookingCalendar.MonthEndNavigation`).
- **Confirming sends one request.** Confirming a booking sends only the status update and the reload; no "mark slot booked" request is made, because that call is commented out in `BookingManager.tsx`.
- **Cancelling deletes.** Cancelling sends `DELETE /bookings/{id}`, not a status change to CANCELLED (`BookingsApi.CancelIsNotAStatusChange`).
- **Slot fetches are neither de-duplicated nor partial.**
  - `fetchSlotTimes` requests an uncached slot id once per occurrence, so duplicate ids are fetched twice (`TimeSlots.FetchAllOrNothing`).
  - It is all-or-nothing: one failed slot fetch leaves the cache unchanged.
- **The manager's load toast never appears.** The manager's "Failed to load bookings" toast is unreachable, because the API helper `fetchBookings` catches every error itself (`BookingManager.Manager.FetchBookings` adds no toast).
- **Stored fields override the defaults.** The auth provider spreads the stored user after its defaults, so a stored null or empty `id`, `name` or `email` overrides the default (`AuthContext.NormalizeUser`).
- **The list's start time is the cache alone.** The list's `getStartTime` consults only the slot cache. The fallback to `bookedAt`, `createdAt` and `updatedAt` exists only where a date is formatted, sorted or matched to a calendar day (`BookingModel.DateSource`).

## Model

| member | source | states |
|---|---|---|
| `BookingModel.Cached` | src/components/bookings/BookingList.tsx:67-68 | a cache hit is non-empty exactly when the id is truthy, present and maps to a non-empty name, and then it is that entry |
| `BookingModel.ServiceName` | src/components/bookings/BookingList.tsx:66-74 | a cached service name wins, else the embedded service's name, else "Unknown Service" |
| `BookingModel.StartTime` | src/components/bookings/BookingList.tsx:76-81 | non-empty exactly when the slot id is truthy and the slot cache holds a non-empty time for it, which is then the result |
| `BookingModel.DateSource` | src/components/bookings/BookingList.tsx:84 | the first non-empty of cached start time, bookedAt, createdAt, updatedAt, each step in that order; empty only when all four are |
| `BookingModel.BookingInstant` | src/components/bookings/BookingList.tsx:84-87 | an instant exists exactly when the date source is non-empty and parses, and it is the parsed one |
| `BookingModel.CustomerLabel` | src/components/bookings/BookingList.tsx:239 | never empty; customerName when set, else client_name when set, else "Client" |
| `BookingModel.UnresolvedBookingFallsBack` | src/components/bookings/BookingList.tsx:66-92 | a booking with no ids and no timestamps shows "Unknown Service", no start time and no date |
| `BookingList.AllowedActions` | src/components/bookings/BookingList.tsx:261-286 | an action is offered exactly when its button's disabled condition is false |
| `BookingList.ActionTable` | src/components/bookings/BookingList.tsx:261-286 | the full table of enabled buttons per status, including that CANCELLED still offers Confirm and Reschedule |
| `BookingList.CompletedIsOnlyTerminal` | src/components/bookings/BookingList.tsx:261-286 | no button is enabled exactly for COMPLETED, and Complete is never enabled without Cancel |
| `BookingList.StatusBadge` | src/components/bookings/BookingList.tsx:142-163 | the four known statuses get their variant and label; any other status is a secondary badge showing the raw status |
| `BookingList.BadgeDistinguishesCancelled` | src/components/bookings/BookingList.tsx:142-163 | the destructive variant is shown exactly for CANCELLED, and the raw status is shown exactly for unknown statuses |
| `BookingList.SelectedExactly` | src/components/bookings/BookingList.tsx:119-131 | a booking survives the status and search filters exactly when it passes both, with its multiplicity kept |
| `BookingList.NoFiltersKeepsAll` | src/components/bookings/BookingList.tsx:120-123 | with both filters empty every booking is kept in order |
| `BookingList.KeyOf` | src/components/bookings/BookingList.tsx:132-138 | the sort key is the booking's instant when sorting by date and the collation key of its customer name otherwise |
| `BookingList.LeTotal` | src/components/bookings/BookingList.tsx:132-138 | the comparator orders any two bookings one way or the other |
| `BookingList.LeTrans` | src/components/bookings/BookingList.tsx:132-138 | the comparator is transitive |
| `BookingList.SortInPlace` | src/components/bookings/BookingList.tsx:132-138 | the array ends sorted by the comparator and is a permutation of what it held |
| `BookingList.InsertAt` | src/components/bookings/BookingList.tsx:132-138 | one insertion step extends the sorted prefix by one element and permutes the array |
| `BookingList.BookingListView.constructor` | src/components/bookings/BookingList.tsx:59-63 | filters start empty and the order is by date |
| `BookingList.BookingListView.SetStatusFilter` | src/components/bookings/BookingList.tsx:181-182 | only the status filter changes |
| `BookingList.BookingListView.SetSearch` | src/components/bookings/BookingList.tsx:215-217 | only the search text changes |
| `BookingList.BookingListView.SetSortBy` | src/components/bookings/BookingList.tsx:198-200 | only the sort order changes |
| `BookingList.BookingListView.FilteredBookings` | src/components/bookings/BookingList.tsx:118-140 | the result holds exactly the selected bookings, sorted; with no filter it is the prop array itself, sorted in place, otherwise a fresh array and the prop is untouched |
| `BookingCalendar.MonthLength` | src/components/bookings/BookingCalendar.tsx:55 | every month has 28 to 31 days |
| `BookingCalendar.Weekday` | src/components/bookings/BookingCalendar.tsx:60 | the day of the week is in 0..6; that it is getDay is proved in `BookingCalendar.WeekdayIsGetDay` |
| `BookingCalendar.YearOfEraStep` | src/components/bookings/BookingCalendar.tsx:60 | one more year of a 400-year era adds a leap day exactly when that year is a multiple of 4 and not of 100 |
| `BookingCalendar.MarchDaysStep` | src/components/bookings/BookingCalendar.tsx:60 | from one March 1st to the next there are 366 days exactly when the later year is a Gregorian leap year, else 365 |
| `BookingCalendar.MonthStartStep` | src/components/bookings/BookingCalendar.tsx:60 | outside February, the next month starts one month's length after the previous one |
| `BookingCalendar.DaysFromEpochStep` | src/components/bookings/BookingCalendar.tsx:60 | the day count from 1970-01-01 grows by exactly one from any real date to the next |
| `BookingCalendar.EpochIsDayZero` | src/components/bookings/BookingCalendar.tsx:60 | 1970-01-01 is day zero of the count |
| `BookingCalendar.WeekdayIsGetDay` | src/components/bookings/BookingCalendar.tsx:60 | 1970-01-01 is a Thursday (4), and each date's weekday is the previous date's plus one, mod 7: the weekday is getDay |
| `BookingCalendar.PrevMonth` | src/components/bookings/BookingCalendar.tsx:58-61 | the previous month is a valid view one month earlier, across year ends |
| `BookingCalendar.NextMonth` | src/components/bookings/BookingCalendar.tsx:69-73 | the next month is a valid view one month later, across year ends |
| `BookingCalendar.MonthIndexInjective` | src/components/bookings/BookingCalendar.tsx:89-95 | two valid views with the same month count are the same month |
| `BookingCalendar.NavigationRoundTrip` | src/components/bookings/BookingCalendar.tsx:58-73 | on month views alone, the month after the previous one, and the month before the next one, are the month itself |
| `BookingCalendar.LeadingCount` | src/components/bookings/BookingCalendar.tsx:61-63 | fewer than seven days of the previous month lead the grid |
| `BookingCalendar.DaysInMonth` | src/components/bookings/BookingCalendar.tsx:51-78 | the three loops build exactly 42 cells, cell k being the k-th grid date |
| `BookingCalendar.GridIsConsecutive` | src/components/bookings/BookingCalendar.tsx:58-75 | every cell is a real date, each cell is the day after the one before, and day d of the month sits right after the leading days |
| `BookingCalendar.GridColumnIsWeekday` | src/components/bookings/BookingCalendar.tsx:58-75 | cell k falls on weekday k mod 7, so each grid column holds one day of the week, Sunday first |
| `BookingCalendar.BookingsForDate` | src/components/bookings/BookingCalendar.tsx:80-87 | a day's bookings are a sub-multiset of all bookings holding exactly the bookings on that day |
| `BookingCalendar.BookingOnOneDayAtMost` | src/components/bookings/BookingCalendar.tsx:80-87 | a booking without a date source shows on no day, one with a parseable date shows on its local day, and no booking shows on two days |
| `BookingCalendar.BookingsForDateCounts` | src/components/bookings/BookingCalendar.tsx:80-87 | the day filter keeps a booking with its multiplicity exactly when it falls on that day, and distributes over concatenation |
| `BookingCalendar.StatusColor` | src/components/bookings/BookingCalendar.tsx:97-108 | green, red and grey for confirmed, cancelled and completed; yellow for everything else |
| `BookingCalendar.PendingAndRescheduledLookAlike` | src/components/bookings/BookingCalendar.tsx:97-108 | pending, rescheduled and unknown statuses share one colour, distinct from confirmed |
| `BookingCalendar.ShiftMonth` | src/components/bookings/BookingCalendar.tsx:89-95 | setMonth one month on or back keeps a real date |
| `BookingCalendar.ShiftMonthOnEarlyDays` | src/components/bookings/BookingCalendar.tsx:89-95 | up to the 28th the shown month moves exactly one month, the day is kept, and forward then back returns to the same date |
| `BookingCalendar.ShiftMonthOverflow` | src/components/bookings/BookingCalendar.tsx:89-95 | a day that fits the target month lands on it; a later day (29th to 31st) runs on into the month after the target, by the days it overshoots |
| `BookingCalendar.MonthEndNavigation` | src/components/bookings/BookingCalendar.tsx:89-95 | in 2023, next from 31 January gives 3 March and prev from there 3 February; prev from 31 March stays in March |
| `BookingCalendar.CalendarState.constructor` | src/components/bookings/BookingCalendar.tsx:49 | the current date starts as today |
| `BookingCalendar.CalendarState.NavigateMonth` | src/components/bookings/BookingCalendar.tsx:89-95 | the current date becomes setMonth's shift of it, a real date; from the 28th or earlier the shown month moves exactly one month |
| `BookingCalendar.CalendarState.GoToToday` | src/components/bookings/BookingCalendar.tsx:133 | the current date becomes today, so today's month is shown |
| `UpcomingBookings.UpcomingSource` | src/components/bookings/UpcomingBookings.tsx:27 | bookedAt when set, else date when set, else slotDate; empty only when all three are |
| `UpcomingBookings.UpcomingInstant` | src/components/bookings/UpcomingBookings.tsx:27 | the booking's instant exists exactly when its date string is non-empty and parses; `new Date('')` is an invalid date |
| `UpcomingBookings.Upcoming` | src/components/bookings/UpcomingBookings.tsx:26-29 | the upcoming list is a sub-multiset of the bookings holding exactly those in the seven-day window |
| `UpcomingBookings.UpcomingExactly` | src/components/bookings/UpcomingBookings.tsx:23-29 | a booking is upcoming exactly when its date parses and lies between now and seven days later, inclusive, with multiplicity kept |
| `UpcomingBookings.TruncRem` | src/components/bookings/UpcomingBookings.tsx:37 | the JavaScript remainder: the dividend minus the truncated quotient times the divisor, with the dividend's sign and smaller than the divisor |
| `UpcomingBookings.CountdownBounds` | src/components/bookings/UpcomingBookings.tsx:35-37 | for a future booking, days and hours floor the distance: hours in 0..23 and days·24h+hours ≤ diff < days·24h+hours+1h |
| `UpcomingBookings.CountdownOfPast` | src/components/bookings/UpcomingBookings.tsx:35-37 | a past booking has negative days and no positive hours |
| `UpcomingBookings.CountdownWithinDay` | src/components/bookings/UpcomingBookings.tsx:35-37 | within a day the countdown is zero days and whole hours |
| `UpcomingBookings.CountdownOverDay` | src/components/bookings/UpcomingBookings.tsx:35-37 | at a day or more the countdown has at least one day |
| `UpcomingBookings.TimeUntilBands` | src/components/bookings/UpcomingBookings.tsx:32-45 | "Soon" exactly for an unparseable or less-than-an-hour-away date; from a day on, exactly the whole days, "d ", the whole hours past them and "h"; "Nh" in between |
| `UpcomingBookings.Urgency` | src/components/bookings/UpcomingBookings.tsx:47-54 | red under 24 hours (including the past), orange under 48, green otherwise and for unparseable dates |
| `UpcomingBookings.UrgencyMatchesCountdown` | src/components/bookings/UpcomingBookings.tsx:32-54 | red exactly when the countdown shows no whole day, orange exactly when it shows one day |
| `UpcomingBookings.ServiceLabel` | src/components/bookings/UpcomingBookings.tsx:110 | never empty; serviceDisplayName, then serviceName, then "-" |
| `UpcomingBookings.StatusVariant` | src/components/bookings/UpcomingBookings.tsx:113 | the default badge exactly for CONFIRMED, outline otherwise |
| `TimeSlots.SlotStartTime` | src/app/api/timeslots.ts:14 | startTime when set, else start_time, else bookingTime, else booking_time; empty only when all are |
| `TimeSlots.FetchAll` | src/app/api/timeslots.ts:11-12 | the slots come back, in request order, exactly when every request succeeds |
| `TimeSlots.FetchSlotTimes` | src/app/api/timeslots.ts:1-23 | the ids requested are the uncached ones in order; the cache update is made only when there is something to fetch and every fetch succeeds |
| `TimeSlots.MergeSlots` | src/app/api/timeslots.ts:13-18 | the forEach leaves the copied cache equal to the merge of the fetched start times, in fetch order |
| `TimeSlots.MergeFacts` | src/app/api/timeslots.ts:13-18 | merging keeps every cached key, keeps entries not refetched, records every fetched non-empty start time, and adds nothing else |
| `TimeSlots.UpdateKeepsCache` | src/lib/api/timeslots.ts:155-181 | an update only adds: cached times are kept and every fetched slot with a start time becomes resolvable |
| `TimeSlots.FetchAllOrNothing` | src/lib/api/timeslots.ts:161-166 | one failed fetch cancels the whole update, nothing to fetch means no update, and an uncached id is requested as often as it occurs |
| `TimeSlots.BookingResolvesAfterUpdate` | src/lib/api/timeslots.ts:161-177 | after an update, a booking whose slot was fetched with a start time has a start time |
| `TimeSlots.CleanDate` | src/app/api/timeslots.ts:107 | the cleaned date is a prefix free of 'T', and a date without 'T' is unchanged |
| `TimeSlots.AppStylistId` | src/app/api/timeslots.ts:101-104 | a given stylist id wins; without one the stored id is used when it is a non-zero number; no id exactly when neither applies |
| `TimeSlots.AppCreateTimeSlot` | src/app/api/timeslots.ts:94-143 | no token or no stylist raises before any request; otherwise the POST carries the slot with datetime date+"T"+start+":00", and a failure is mapped to its message |
| `TimeSlots.CreateSlotMessagesAgree` | src/lib/api/timeslots.ts:96-122 | the two variants word every failure alike except 500, which the lib variant reports as a server error first |
| `TimeSlots.PaddedPartOfNumber` | src/lib/api/timeslots.ts:69-77 | a one- or two-digit hour or minute is padded to exactly two digits |
| `TimeSlots.PaddedDatetimeOfNumbers` | src/lib/api/timeslots.ts:66-77 | "H:M" and "HH:MM" both become date+"T"+HH+":"+MM+":00.000Z" |
| `TimeSlots.LibCreateTimeSlot` | src/lib/api/timeslots.ts:56-124 | no stylist raises before any request; otherwise the POST carries the padded UTC datetime, and a failure is mapped to its message |
| `TimeSlots.LibTimeSlotsByStylist` | src/lib/api/timeslots.ts:126-153 | no stylist raises before any request; a truthy id sends exactly GET /timeslots/provider/{id}, whose data is returned, or whose failure is mapped to its message |
| `TimeSlots.SlotsByStylistClasses` | src/lib/api/timeslots.ts:139-152 | 401, 404 and network errors get their fixed messages in that order, then the backend message; never empty |
| `TimeSlots.AppTimeSlotsByStylist` | src/app/api/timeslots.ts:145-178 | no token raises first, then no stylist id; otherwise exactly GET /timeslots/provider/{id}, whose data is returned or whose failure is mapped to its message |
| `TimeSlots.SlotsByStylistVariantsAgree` | src/app/api/timeslots.ts:145-178 | with a token stored, the src/app listing behaves as the src/lib one given the stored id |
| `BookingsApi.StringIds` | src/app/api/bookings.ts:110-112 | the string ids kept are exactly the values that are strings |
| `BookingsApi.StringIdsMultiplicity` | src/app/api/bookings.ts:110-112 | each string id is kept as often as it occurs |
| `BookingsApi.ServiceIdValues` | src/app/api/bookings.ts:110-111 | one service id per booking, in order |
| `BookingsApi.SlotIdValues` | src/app/api/bookings.ts:117-118 | one slot id per booking, in order |
| `BookingsApi.ExtractedIds` | src/app/api/bookings.ts:110-122 | an id is extracted exactly when some booking carries it as a string, with multiplicity kept |
| `BookingsApi.ResolveCaches` | src/app/api/bookings.ts:110-122 | the name lookup runs for a non-empty service-id list; the slot lookup runs only if that did not fail; the calls are exactly the cache setters for the resolved names and slot times, and none after a failure |
| `BookingsApi.CacheCalls` | src/app/api/bookings.ts:113-122 | setServiceNames is called exactly when there are names, first, and setSlotTimes exactly when there is a slot-time update, last, each with that value |
| `BookingsApi.CallsLayout` | src/app/api/bookings.ts:105-127 | after a successful GET the calls open with loading on and the bookings at index 1, only the closing calls can flag an error, and loading off comes last |
| `BookingsApi.FetchBookings` | src/app/api/bookings.ts:89-128 | no user: error and loading off, no request; otherwise loading on, one GET, bookings set first, error set exactly when a step fails, loading always off last; the calls are exactly the fetch trace, cache setters included |
| `BookingsApi.FetchStoresCaches` | src/app/api/bookings.ts:113-122 | once the bookings arrived and the names did not fail, each resolved cache is handed to its setter |
| `BookingsApi.StatusFailure` | src/app/api/bookings.ts:145-163 | network error, then 500, then 404 become their messages; anything else is rethrown unchanged |
| `BookingsApi.UpdateBookingStatus` | src/app/api/bookings.ts:130-164 | PATCH /bookings/{id}/status with the status; success returns the data, failure is classified |
| `BookingsApi.RescheduleBody` | src/app/api/bookings.ts:166-176 | exactly stylistId, newStartTime and status, with status defaulting to RESCHEDULED |
| `BookingsApi.RescheduleFailure` | src/app/api/bookings.ts:185-202 | network error, then 404, 400 and 500 become their messages, 500 carrying the backend message or error; anything else is rethrown |
| `BookingsApi.RescheduleBooking` | src/app/api/bookings.ts:166-203 | PATCH /bookings/{id}/reschedule with the body; success returns the data, failure is classified |
| `BookingsApi.CancelBooking` | src/app/api/bookings.ts:205-214 | DELETE /bookings/{id}; success returns the data, failure is rethrown |
| `BookingsApi.CancelIsNotAStatusChange` | src/lib/api/bookings.ts:189-192 | cancelling is a deletion, never the status or reschedule request |
| `BookingsApi.NetworkErrorWins` | src/lib/api/bookings.ts:122-186 | a network error is reported as such by both status and reschedule, whatever its status code |
| `BookingManager.SettersBookings` | src/components/bookings/BookingManager.tsx:113-122 | after the setter calls, the bookings are those of the last SetBookings call, if any |
| `BookingManager.SettersCaches` | src/components/bookings/BookingManager.tsx:113-122 | each cache is unchanged or is the value of one of the setter calls |
| `BookingManager.SettersConcat` | src/components/bookings/BookingManager.tsx:113-122 | running two setter traces in turn is running their concatenation |
| `BookingManager.SettersSingle` | src/components/bookings/BookingManager.tsx:113-122 | a single setter call changes only its own field |
| `BookingManager.SettersOfCacheCalls` | src/components/bookings/BookingManager.tsx:113-122 | the cache setters leave each cache as resolved, or unchanged when nothing was resolved |
| `BookingManager.SettersThree` | src/components/bookings/BookingManager.tsx:113-122 | three setter calls apply in order |
| `BookingManager.FetchedIgnoresLoading` | src/components/bookings/BookingManager.tsx:110-128 | two states that agree on bookings and both caches give the same state after a fetch, whatever their loading flag |
| `BookingManager.SettersOfFetch` | src/components/bookings/BookingManager.tsx:110-128 | after one fetch: loading off, the fetched bookings once the GET succeeds, and each cache as resolved when the names did not fail and something was resolved, else unchanged |
| `BookingManager.RescheduleDateTimeRoundTrip` | src/components/bookings/BookingManager.tsx:102 | the composed datetime splits back into the picked date and time, with ":00.000Z" appended |
| `BookingManager.GetStats` | src/components/bookings/BookingManager.tsx:174-185 | total is the number of bookings; today counts the bookings dated on today's local day; confirmed and pending count those statuses |
| `BookingManager.TodayExactly` | src/components/bookings/BookingManager.tsx:175-178 | a booking counts towards today, as often as it occurs, exactly when its bookedAt, date or slotDate is non-empty and parses to an instant on now's local day |
| `BookingManager.StatsBounds` | src/components/bookings/BookingManager.tsx:174-185 | confirmed plus pending, and today, never exceed total |
| `BookingManager.Manager.constructor` | src/components/bookings/BookingManager.tsx:21-29 | empty bookings and caches, nothing selected, nothing sent, no toast |
| `BookingManager.Manager.ApplySetters` | src/components/bookings/BookingManager.tsx:113-122 | the component state after the setter calls is their fold over the old state; nothing else changes |
| `BookingManager.Manager.FetchBookings` | src/components/bookings/BookingManager.tsx:110-128 | loading ends off; bookings are replaced exactly when the GET succeeds; service names and slot times become their resolved values when there are any and the names did not fail, and stay otherwise; the toast is never shown |
| `BookingManager.Manager.Reload` | src/components/bookings/BookingManager.tsx:145 | a reload happens only for a truthy user id, as that id's text, and leaves exactly the fetched state; otherwise nothing changes |
| `BookingManager.Manager.ConfirmBooking` | src/components/bookings/BookingManager.tsx:137-149 | one status request to CONFIRMED, then a reload on success or the confirm toast on failure, which leaves the loaded state as it was; no slot request |
| `BookingManager.Manager.CancelBookingAction` | src/components/bookings/BookingManager.tsx:151-158 | one delete, then a reload on success or the cancel toast on failure, which leaves the loaded state as it was |
| `BookingManager.Manager.CompleteBooking` | src/components/bookings/BookingManager.tsx:164-171 | one status request to COMPLETED, then a reload on success or the complete toast on failure, which leaves the loaded state as it was |
| `BookingManager.Manager.RescheduleBookingAction` | src/components/bookings/BookingManager.tsx:61-72 | a non-string user id gives the toast and no request; otherwise the reschedule request, then a reload or the toast; the loaded state changes only by that reload |
| `BookingManager.Manager.HandleCancelReschedule` | src/components/bookings/BookingManager.tsx:75-79 | the reschedule dialog state is cleared and nothing else changes |
| `BookingManager.Manager.HandleRescheduleClick` | src/components/bookings/BookingManager.tsx:81-98 | the booking is selected; date and time are prefilled from a parseable start time, else cleared |
| `BookingManager.Manager.HandleSaveReschedule` | src/components/bookings/BookingManager.tsx:100-105 | nothing happens unless id, date and time are all set; otherwise exactly the reschedule of the picked datetime and its reload or toast, and the dialog is cleared |
| `BookingManager.Manager.OnAuthReady` | src/components/bookings/BookingManager.tsx:130-134 | bookings are loaded only once auth has finished loading and the user is authenticated with a truthy id; the dialog state never changes |
| `BookingManager.SavedRescheduleCarriesPick` | src/components/bookings/BookingManager.tsx:100-105 | the saved reschedule sends the picked date, RESCHEDULED and the user's id |
| `Auth.LocalStorage.constructor` | src/app/api/auth.ts:161-162 | the store holds the given items |
| `Auth.LocalStorage.SetItem` | src/app/api/auth.ts:69 | exactly that key is set |
| `Auth.LocalStorage.RemoveItem` | src/app/api/auth.ts:205 | exactly that key is removed |
| `Auth.Item` | src/app/api/auth.ts:161-165 | a stored item is truthy exactly when it is present and non-empty |
| `Auth.GetCurrentStylistId` | src/app/api/auth.ts:159-169 | stylist_id first, then userId, parsed with parseInt; none when both are missing or empty |
| `Auth.GetCurrentUser` | src/app/api/auth.ts:172-188 | null when nothing is stored, the parsed user when it parses, otherwise null and the corrupt entry removed |
| `Auth.Logout` | src/app/api/auth.ts:203-211 | exactly the four session keys are removed |
| `Auth.LoggedOutHasNoSession` | src/app/api/auth.ts:191-211 | after logout the user is not logged in and no stylist id is found |
| `Auth.StoredIdReadsBack` | src/app/api/auth.ts:159-169 | an id stored as text under stylist_id (or userId when stylist_id is empty) reads back as that number |
| `Auth.FillFrom` | src/app/api/auth.ts:76-78 | a missing user field is filled from the response only when the response has a truthy one |
| `Auth.Login` | src/app/api/auth.ts:47-156 | POST /auth/login first; a failure is rethrown with storage untouched; otherwise the response data is returned, the profile is requested only in the fallback branch, and storage gets exactly the login writes |
| `Auth.NormalizeUserObject` | src/app/api/auth.ts:73-78 | the step-by-step filling of userObj gives the normalised user |
| `Auth.StoreTokenSession` | src/app/api/auth.ts:67-94 | the token branch writes exactly the token writes, in order |
| `Auth.StoreTempSession` | src/app/api/auth.ts:99-110 | a temporary session writes exactly the temporary token, the user, and the id under userId and stylist_id |
| `Auth.ApplyWritesOutside` | src/app/api/auth.ts:67-148 | writes to a set of keys leave every other key as it was |
| `Auth.LoginWritesSessionKeys` | src/app/api/auth.ts:67-148 | login writes only the session keys |
| `Auth.LogoutUndoesLogin` | src/app/api/auth.ts:203-211 | logging out after a login leaves storage as it was before, outside the session keys |
| `Auth.LoginBranches` | src/app/api/auth.ts:67-118 | the token branch stores the token first and the user only when it has an id; without a token a possible id makes a temporary session; otherwise nothing is written unless the profile is asked |
| `Auth.TempSessionLogsIn` | src/app/api/auth.ts:95-111 | a temporary session leaves the user logged in, with the extracted id as the current stylist id |
| `AuthContext.NormalizeUser` | src/context/AuthContext.tsx:34-39 | the restored user always has id, name and email, keeps every stored field (spread last), and adds nothing else |
| `AuthContext.NormalizeUserDefaults` | src/context/AuthContext.tsx:34-39 | a missing id defaults to userId or "0", a missing name to username or "Unknown User", a missing email to "" |
| `AuthContext.AuthProvider.constructor` | src/context/AuthContext.tsx:25 | no user, loading |
| `AuthContext.AuthProvider.Restored` | src/context/AuthContext.tsx:32-43 | a user is restored exactly when the stored user is truthy and a token is stored, and it is the normalised one |
| `AuthContext.AuthProvider.Mount` | src/context/AuthContext.tsx:27-54 | the user is restored when a user and a token are stored, otherwise cleared together with the session keys; loading ends |
| `AuthContext.AuthProvider.RefreshAuthState` | src/context/AuthContext.tsx:57-75 | the user is restored as on mount, without clearing storage or touching loading |
| `AuthContext.AuthProvider.LoginUser` | src/context/AuthContext.tsx:91-104 | token and user are stored; a null or undefined id throws after those two writes and leaves the user; otherwise userId (and stylist_id when truthy) are stored and the user set |
| `AuthContext.AuthProvider.LogoutUser` | src/context/AuthContext.tsx:106-109 | the session keys are removed and the user is no longer authenticated |
| `AuthContext.ClearSession` | src/context/AuthContext.tsx:45-50 | exactly the four session keys are removed |
| `AuthContext.LoginUserLogsIn` | src/context/AuthContext.tsx:91-104 | after loginUser with a token the user is logged in and nothing outside the session keys changed |
| `AuthContext.CorruptUserIsNotRestored` | src/context/AuthContext.tsx:27-54 | an unparseable stored user is not restored and is removed from storage |
| `SignUp.Validate` | src/app/signup/page.tsx:32-46 | the first failing guard gives its message: a missing field, then mismatched passwords, then a password under ten UTF-16 code units; none when all pass |
| `SignUp.Utf16Length` | src/app/signup/page.tsx:42 | `password.length` counts UTF-16 code units: between one and two per character |
| `SignUp.BmpLength` | src/app/signup/page.tsx:42 | a Basic Multilingual Plane string is as long in code units as in characters |
| `SignUp.AstralLength` | src/app/signup/page.tsx:42 | characters outside the Basic Multilingual Plane count twice |
| `SignUp.LengthBoundIsInclusive` | src/app/signup/page.tsx:42-46 | ten code units pass and nine do not |
| `SignUp.AstralPasswordPasses` | src/app/signup/page.tsx:42-46 | five characters outside the Basic Multilingual Plane pass the length guard |
| `SignUp.RegisterError` | src/app/signup/page.tsx:67-68 | the backend message when there is one, else the generic failure text |
| `SignUp.Greeting` | src/app/signup/page.tsx:82-87 | morning before 12, afternoon before 18, evening from 18 |
| `SignUp.SignUpForm.constructor` | src/app/signup/page.tsx:13-23 | empty fields, prices 50 and 200, no error, not loading |
| `SignUp.SignUpForm.Edit` | src/app/signup/page.tsx:75-79 | the field takes the value and a change clears the error; nothing else changes |
| `SignUp.SignUpForm.EditPrice` | src/app/signup/page.tsx:150-170 | the price takes `Number` of the input, 0 when emptied; the error, the other price and the text fields stay as they were |
| `SignUp.SignUpForm.HandleSignUp` | src/app/signup/page.tsx:26-72 | an invalid form shows its message and sends nothing; a valid one sends the payload and ends in success or the register error; loading ends off; the form fields, the confirmation included, are unchanged |
| `SignUp.PayloadRenames` | src/app/signup/page.tsx:50-58 | the payload has exactly the seven register keys, the full name as name and the phone as phoneNumber |
| `StylistsService.GetServicesForStylist` | src/app/api/stylists-service.ts:53-65 | non-array data gives no services; a null or undefined item throws; otherwise an item is kept exactly when its stylistId or stylist_id is strictly the number; a failure is rethrown |
| `StylistsService.ServicesForStylistExactly` | src/app/api/stylists-service.ts:57-62 | the filter keeps each matching item as often as it occurs and nothing else |
| `StylistsService.StringIdNeverMatches` | src/app/api/stylists-service.ts:59-60 | strict equality: a stylist id stored as a string never matches, even with the same digits |
| `StylistsService.AddServiceToStylist` | src/app/api/stylists-service.ts:31-44 | the POST body has exactly the four keys, an omitted price or duration sent as undefined |

## Left out

- **Request plumbing.**
  - HTTP headers, the bearer token and the axios client setup are not modelled. The `src/app/api` variants send `Bearer null` when no token is stored.
  - Base URLs and the proxy route are not modelled.
  - Console logging is not modelled.
- **Request log.** The manager's `requests` field does not log the slot GETs (`GET /timeslots/{id}`) or the service-name lookups that a fetch makes. Those lookups are modelled by `TimeSlots.FetchSlotTimes`, which returns the ids it requests, and by the name resolver.
- **Asynchrony.** The order in which concurrent `Promise.all` requests complete is not modelled; all requests are issued and their answers are given.
- **Unmodelled helpers.**
  - `fetchServiceNames` is not part of this model. Its effect is a resolver parameter that either fails or gives a new name cache.
  - `src/lib/api/auth.ts` is not part of this model. The lib variants take the current stylist id as a parameter.
- **Response payloads.**
  - Booking payloads that are not arrays are not modelled: the bookings response is a sequence.
  - Fractional numbers are not modelled.
  - JavaScript numbers are integers here: `Number` and `parseInt` give an integer or NaN. `Js.ToNumber` reads only an optional sign and decimal digits, so hex (`Number("0x1A")` is 26) and exponent (`Number("1e1")` is 10) forms read as NaN.
- EditPrice: a number input can also hold a fractional or exponent numeral; the model admits only the empty string and integer numerals.
- **Locale formatting.** `formatBookingTime`, `formatStartTime` and the `toLocale*` calls only format text for display.
- **Unmodelled React effects.**
  - The `storage` event listener of the auth provider is not modelled.
  - The one-second redirect after sign-up is not modelled.
  - `use-pending-bookings-count` is not modelled.
  - The login page's greeting is the same function as the sign-up page's.
- **Host-defined behaviour.** These are host parameters or left out:
  - the exact text of the `TypeError` raised on a null item;
  - prototype-inherited keys in object lookups;
  - Unicode case mapping beyond ASCII;
  - daylight-saving shifts in the seven-day window;
  - JSON key order.
- NormalizedUser: when `data.user` or `data.stylist` is a truthy primitive and a top-level id, name or email is set, `userObj.id = …` throws a `TypeError` in strict-mode code, after the token is stored. The model treats the primitive as an empty object and writes the whole session (`Auth.NormalizedUser`).
- NormalizedUser: an array user stays an array in JavaScript, and `JSON.stringify` then drops the filled-in fields. The model treats it as an empty object.
- NormalizeUser: spreading a stored string or array adds its index keys. The model spreads only objects (`AuthContext.NormalizeUser`).
- **Sorting.**
  - Sort stability is not modelled.
  - The inconsistent comparator JavaScript gets from a NaN date is not modelled: unparseable dates sort first.
