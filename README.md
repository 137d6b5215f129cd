# AirMetR reservation availability and booking, in Dafny

AirMetR is a property-rental site: an ASP.NET Core Web API with a React front
end. This project models the one part of it with rules of its own, which is how
a stay is booked and how dates are blocked:

- the server's reservation endpoints (`ReservationController.cs`), over an
  in-memory reservation store (`ReservationController.ReservationStore`):
  - booking: the customer and property lookups, the guest-capacity check, the
    inclusive overlap scan over the property's reservations, and the derived
    `TotalDays` and `TotalPrice`;
  - updating a reservation by overwriting five of its fields;
  - deleting one;
  - listing a property's unavailable days;
- the booking box on the property page (`ReservationBox.js`): the day-by-day
  check of a range against the server's date list, the nights/price effect,
  the default range, and the submit gate;
- the reservation update page (`Update.js`): the same check, the
  totalDays/totalPrice effect, the submit gate and the PUT payload.

Dates are day numbers (`Booking.Day`): day `d + 1` is the day after day `d`.
Prices are `real`, because C# `decimal` is exact. Module `Booking` holds the
shared records and date rules. `Availability` holds the lemmas that relate the
client check to the server rule.

What the proofs establish:

- **Booking keeps properties free of double bookings.** The overlap test
  `start <= r.EndDate && end >= r.StartDate` is symmetric. So
  `CompleteReservation` turns a store with no double booking into one with
  none, and so does `DeleteReservation`. The seed data is not free of double
  bookings, so this is proved as preserved, never assumed.
- **The client check agrees with the server rule, within limits.** For a
  forward candidate range, when none of the property's reservations is
  reversed, "some candidate day is in the unavailable-date list" holds
  exactly when the server finds a conflict.
  Outside those limits they disagree, and lemmas name inputs that show it:
  - a reversed candidate range passes the client and can fail at the server;
  - a reservation whose end is the day before its start lists no days but
    still blocks bookings.
- **The gaps in the code are stated, not hidden:**
  - the update endpoint checks neither overlap nor capacity, so an update can
    double-book;
  - the date list keeps duplicates;
  - nothing rejects `end <= start`, and a reservation ending more than a day
    before it starts makes the date list endpoint throw;
  - the update page never loads the nightly price, so it sends a total price
    of 0;
  - the update page's guest input writes the end date, so it always sends 1
    guest;
  - the update page asks for the dates of "property" `routeId`, where
    `routeId` is a reservation id.

The model follows the code, including behaviour a booking system would
usually avoid:

- the overlap test is inclusive on both ends;
- the unavailable-date list is not deduplicated;
- `end <= start` is not rejected;
- the update endpoint does not re-check overlap or capacity and stores the
  totals the client sent.

## Model

| member | source | states |
|---|---|---|
| `Booking.ConflictsSymmetric` | AirMetR/Controllers/ReservationController.cs:114 | the inclusive overlap test gives the same answer whichever of the two ranges is the candidate |
| `Booking.ReservationsOf` | AirMetR/Controllers/ReservationController.cs:109 | the reservations fetched for a property are exactly the store's reservations with that property id |
| `Booking.IndexOfId` | AirMetR/Controllers/ReservationController.cs:197-202 | the lookup by id finds a reservation with that id, or reports that none exists |
| `Booking.CreatePreservesNoDoubleBooking` | AirMetR/Controllers/ReservationController.cs:109-133 | appending a reservation that conflicts with none of its property's reservations keeps "no two reservations of a property overlap" |
| `Booking.RemovePreservesNoDoubleBooking` | AirMetR/Controllers/ReservationController.cs:247 | removing a reservation keeps "no two reservations of a property overlap" |
| `Booking.DayRange` | AirMetR/Controllers/ReservationController.cs:180 | `Enumerable.Range(0, count)` shifted to a start day yields `count` days, exactly the days from start to start + count - 1 |
| `Booking.DaysOf` | AirMetR/Controllers/ReservationController.cs:180 | one reservation contributes (End - Start) + 1 days, exactly those from StartDate to EndDate inclusive |
| `Booking.ExpandAll` | AirMetR/Controllers/ReservationController.cs:180 | a day is in the concatenated list iff some reservation covers it |
| `Booking.ExpandAllAppend` | AirMetR/Controllers/ReservationController.cs:180 | the list is each reservation's days in store order, concatenated (SelectMany) |
| `Booking.ExpandAllLength` | AirMetR/Controllers/ReservationController.cs:180 | the list's length is the sum of the reservations' day counts: nothing is removed as a duplicate |
| `Booking.UnavailableDaySetIgnoresOrder` | AirMetR/Controllers/ReservationController.cs:180 | reordering the reservations does not change which days are listed |
| `Booking.ConflictIffSharedDay` | AirMetR/Controllers/ReservationController.cs:114 | for forward ranges, the inclusive overlap test holds iff some candidate day is one of the reservation's listed days |
| `ReservationController.HasConflict` | AirMetR/Controllers/ReservationController.cs:109-119 | the scan with early return reports a conflict iff some existing reservation of the property overlaps the candidate |
| `ReservationController.GetUnavailableDates` | AirMetR/Controllers/ReservationController.cs:175-188 | no list from the repository gives an empty list. Otherwise the endpoint answers iff every day count is non-negative, and then lists exactly the covered days |
| `ReservationController.Overwrite` | AirMetR/Controllers/ReservationController.cs:205-212 | an update keeps the reservation's id, property and customer |
| `ReservationController.ReservationStore.constructor` | AirMetR/DAL/DBInit.cs:2651-2686 | the store starts from any rows with distinct ids, overlapping ones included |
| `ReservationController.ReservationStore.CompleteReservation` | AirMetR/Controllers/ReservationController.cs:79-147 | handles each case of a booking request. Missing customer or property: NotFound, nothing stored. More guests than the property takes: BadRequest; exactly the capacity is accepted. A conflicting reservation of the property: BadRequest, nothing stored. Otherwise exactly one new row, with `TotalDays = End - Start` and `TotalPrice = Price * TotalDays`. Always keeps "no double booking" |
| `ReservationController.ReservationStore.UpdateReservation` | AirMetR/Controllers/ReservationController.cs:192-231 | an unknown id gives NotFound and changes nothing. Otherwise only StartDate, EndDate, NumberOfGuests, TotalDays and TotalPrice are overwritten with the request's values, with no overlap or capacity check |
| `ReservationController.ReservationStore.DeleteReservation` | AirMetR/Controllers/ReservationController.cs:236-261 | an unknown id gives NotFound and changes nothing. Otherwise exactly that row is removed, and "no double booking" is kept |
| `ReservationController.UpdateCanDoubleBook` | AirMetR/Controllers/ReservationController.cs:205-215 | shows a store with no double booking, and an update the endpoint stores that creates one |
| `ReservationController.UnavailableDatesKeepDuplicates` | AirMetR/Controllers/ReservationController.cs:180 | two reservations of days 8-9 give the list [8, 9, 8, 9] |
| `ReservationController.ReversedReservationBreaksDateList` | AirMetR/Controllers/ReservationController.cs:180 | a stored reservation ending more than a day before it starts makes the date list endpoint fail |
| `ReservationBox.ClientNights` | AirMetR/ClientApp/src/pages/Reservations/ReservationBox.js:52-55 | `ceil((end - start) / ms per day)` is the day difference for two dates, and NaN when either is empty |
| `ReservationBox.IsDateRangeUnavailable` | AirMetR/ClientApp/src/pages/Reservations/ReservationBox.js:64-79 | the day walk answers true iff some day d with start <= d <= end is in the list. Both ends are included, and a reversed range is never unavailable |
| `ReservationBox.ReservationForm.constructor` | AirMetR/ClientApp/src/pages/Reservations/ReservationBox.js:12-46 | the state after mounting: both dates start empty (lines 12-18) and the mount effect (lines 42-46) sets them to today + 3 and today + 10, a 7-night stay, with one guest and no price yet |
| `ReservationBox.ReservationForm.PriceEffect` | AirMetR/ClientApp/src/pages/Reservations/ReservationBox.js:50-61 | the total becomes nights times the nightly price when nights > 0, and otherwise keeps its previous value |
| `ReservationBox.ReservationForm.SetStartDate` | AirMetR/ClientApp/src/pages/Reservations/ReservationBox.js:139 | a new start date reprices the stay through the effect |
| `ReservationBox.ReservationForm.SetEndDate` | AirMetR/ClientApp/src/pages/Reservations/ReservationBox.js:151 | a new end date reprices the stay through the effect |
| `ReservationBox.ReservationForm.SetPricePerNight` | AirMetR/ClientApp/src/pages/Reservations/ReservationBox.js:31-40 | the fetched nightly price reprices the stay through the effect |
| `ReservationBox.ReservationForm.SetNumberOfGuests` | AirMetR/ClientApp/src/pages/Reservations/ReservationBox.js:158 | the guest input sets the guest count |
| `ReservationBox.ReservationForm.FetchUnavailableDates` | AirMetR/ClientApp/src/pages/Reservations/ReservationBox.js:21-29 | the list becomes the server's list for this property, and is kept when the server fails |
| `ReservationBox.ReservationForm.HandleSubmit` | AirMetR/ClientApp/src/pages/Reservations/ReservationBox.js:81-157 | called only when the browser lets the form submit: both dates given and not before today, at least one guest (lines 131-157). A range holding a listed day then sets the error and posts nothing. Otherwise the dates and guest count are posted |
| `ReservationBox.StaleTotalAfterZeroNightRange` | AirMetR/ClientApp/src/pages/Reservations/ReservationBox.js:56-58 | after a 7-night stay at 1000, a zero-night range still shows 7000 |
| `UpdateReservationPage.PutStoresPayload` | AirMetR/Controllers/ReservationController.cs:197-212 | a PUT of the update page replaces only the row with that id. The row keeps its id, property and customer and takes the payload's dates, guest count, day count and total price; the payload's property id is not stored |
| `UpdateReservationPage.UpdateForm.constructor` | AirMetR/ClientApp/src/pages/Reservations/Update.js:6-57 | the page starts with empty dates, a price of 0, one guest and totalDays 0 (lines 6-16); after the first run of the totals effect (lines 46-57) totalDays is NaN, which is the state the constructor establishes together with the invariant |
| `UpdateReservationPage.UpdateForm.TotalsEffect` | AirMetR/ClientApp/src/pages/Reservations/Update.js:46-57 | totalDays always takes the night count; totalPrice changes only when it is positive |
| `UpdateReservationPage.UpdateForm.ReceiveReservation` | AirMetR/ClientApp/src/pages/Reservations/Update.js:31-44 | the fetched reservation is stored; the dates are not taken from it |
| `UpdateReservationPage.UpdateForm.SetStartDate` | AirMetR/ClientApp/src/pages/Reservations/Update.js:134 | a new start date sets totalDays to the new night count |
| `UpdateReservationPage.UpdateForm.SetEndDate` | AirMetR/ClientApp/src/pages/Reservations/Update.js:145 | a new end date sets totalDays to the new night count |
| `UpdateReservationPage.UpdateForm.OnGuestsInput` | AirMetR/ClientApp/src/pages/Reservations/Update.js:150-157 | the guest input's handler writes the end date and leaves the guest count at its initial value; the end-date input then shows nothing, so the form cannot be submitted until a new end date is picked (`HandleSubmit` requires it) |
| `UpdateReservationPage.UpdateForm.FetchUnavailableDates` | AirMetR/ClientApp/src/pages/Reservations/Update.js:18-28 | the list becomes the server's list for "property" routeId, where routeId is the reservation id, and is kept when the server fails |
| `UpdateReservationPage.UpdateForm.HandleSubmit` | AirMetR/ClientApp/src/pages/Reservations/Update.js:80-118 | called only while both required date inputs show a date. The submit is stopped iff some day of the range is listed. Otherwise a PUT carries the dates, 1 guest, a total price of 0 and the night count. When no reservation was loaded, no PUT is sent |
| `UpdateReservationPage.UpdatedReservationIsFree` | AirMetR/Controllers/ReservationController.cs:205-212 | a reservation updated through the page stores 1 guest and a total price of 0, whatever the property charges |
| `Availability.ClientCheckMatchesBookingRule` | AirMetR/ClientApp/src/pages/Reservations/ReservationBox.js:68-79 | for a forward range, when the property's own reservations are forward (other properties' rows may be reversed), the client's check on the server's list holds iff the booking endpoint finds a conflicting reservation |
| `Availability.ReversedRangeRejectedOnlyByServer` | AirMetR/ClientApp/src/pages/Reservations/ReservationBox.js:71 | a reversed range passes the client check but can conflict at the server |
| `Availability.InvertedReservationBlocksUnlistedDays` | AirMetR/Controllers/ReservationController.cs:180 | a reservation ending the day before it starts lists no days yet still blocks bookings |
| `Availability.SameDayReservationBlocksOneDay` | AirMetR/Controllers/ReservationController.cs:129-130 | a same-day reservation has 0 days and price 0 but blocks its day |
| `Availability.SharedBoundaryDayConflicts` | AirMetR/Controllers/ReservationController.cs:114 | a stay starting on another stay's checkout day conflicts; one starting the next day does not |
| `Availability.SelfConflictWhenIdsCoincide` | AirMetR/ClientApp/src/pages/Reservations/Update.js:21 | when a reservation's id equals its property's id and that property's reservations all have a valid day count, its own days are in the list the update page checks |
| `Availability.UpdatePageChecksWrongProperty` | AirMetR/ClientApp/src/pages/Reservations/Update.js:19-22 | the update page of reservation 5 sees property 5's days, not its own property's booked days |

## Left out

- Persistence is an in-memory store. EF Core, SQLite, the repository classes and their queries are not part of this model. A failing `Add`, `Update` or `Delete` is a boolean parameter, and the store is unchanged when it fails.
- `ReservationController.ReservationStore.CompleteReservation`: the repository's null answer for a property's reservations is not modelled there; it takes the same path as an empty list. It is modelled in `GetUnavailableDates`.
- The catch-all exception handlers (model binding errors, database exceptions) and logging are not modelled.
- Concurrency is not modelled: the model is sequential. The check-then-insert race between two simultaneous bookings is therefore not captured.
- Dates are day numbers. Time zones, daylight-saving shifts of `setDate`, `toISOString` and string formatting of dates are not modelled. The JavaScript nights formula is modelled on midnight dates, where its division is exact.
- `UpdateReservationPage.UpdateForm.OnGuestsInput`: how the browser parses the typed guest count as a date is a parameter, not modelled; that the date input then shows nothing is a flag, not a model of the browser's value sanitising.
- The HTTP layer, axios modules and routing are not modelled, nor are the alerts, navigation and the post-submit error message of the booking box.
- The read-only endpoints (`ListReservations`, `Details`, `Reservation`) are not modelled, and the property controller and pages are not part of this model.
