/**
 * The page that edits an existing reservation. Its route parameter is the
 * reservation id; it reuses the booking box's day walk and nights formula,
 * keeps totalDays in step with the dates, and sends its own totals to the
 * update endpoint. What it never does is part of the model: the nightly price
 * is never loaded, the guest input writes the end date, and the unavailable
 * dates are requested with the reservation id in place of a property id.
 */
module UpdateReservationPage {
  import opened Wrappers
  import opened Booking
  import opened ReservationController
  import opened ReservationBox

  /** The form fields of the PUT request. */
  datatype UpdatePayload = UpdatePayload(
    startDate: Day,
    endDate: Day,
    numberOfGuests: int,
    propertyId: int,
    totalPrice: real,
    totalDays: int)

  /** The part of the payload the update endpoint copies into the stored reservation. */
  function AsUpdateRequest(p: UpdatePayload): (request: UpdateRequest)
  {
    UpdateRequest(p.startDate, p.endDate, p.numberOfGuests, p.totalDays, p.totalPrice)
  }

  /** What a submit does: stopped by the date check, sent as a PUT, or stopped by a TypeError. */
  datatype Submission = Blocked | Put(payload: UpdatePayload) | NoReservationLoaded

  /** The update page's state. A date of None is an empty input; a totalDays of None is NaN. */
  class UpdateForm {
    const routeId: int
    var reservation: Option<Reservation>
    var startDate: Option<Day>
    var endDate: Option<Day>
    var pricePerNight: real
    var totalPrice: real
    var totalDays: Option<int>
    var numberOfGuests: int
    var unavailableDates: seq<Day>
    /**
     * The end-date input shows nothing although endDate holds a value: the
     * guest handler stored a number there, which is not a date string, so the
     * date input drops it and its `required` keeps the form from submitting.
     */
    var endDateInputEmpty: bool

    /**
     * What every reachable state of the page satisfies: the guest count is
     * still its initial 1, the nightly price is still 0 and so is the total,
     * and totalDays is the night count of the current dates.
     */
    ghost predicate Valid()
      reads this
    {
      && numberOfGuests == 1
      && pricePerNight == 0.0
      && totalPrice == 0.0
      && totalDays == ClientNights(startDate, endDate)
    }

    /** The mounted page: empty dates, so the first run of the effect leaves totalDays at NaN. */
    constructor (routeId: int)
      ensures Valid()
      ensures this.routeId == routeId && reservation == None
      ensures startDate == None && endDate == None && totalDays == None
      ensures unavailableDates == [] && !endDateInputEmpty
    {
      this.routeId := routeId;
      reservation := None;
      startDate := None;
      endDate := None;
      pricePerNight := 0.0;
      totalPrice := 0.0;
      totalDays := None;
      numberOfGuests := 1;
      unavailableDates := [];
      endDateInputEmpty := false;
    }

    /**
     * The effect on the dates and the price: totalDays always takes the night
     * count, totalPrice only when it is positive.
     */
    method TotalsEffect()
      modifies this`totalDays, this`totalPrice
      ensures totalDays == ClientNights(startDate, endDate)
      ensures var days := ClientNights(startDate, endDate);
        totalPrice == if days.Some? && days.value > 0 then StayPrice(pricePerNight, days.value) else old(totalPrice)
    {
      var days := ClientNights(startDate, endDate);
      if days.Some? && days.value > 0 {
        totalPrice := StayPrice(pricePerNight, days.value);
      }
      totalDays := days;
    }

    /** The reservation-details fetch; the dates are not taken from it. */
    method ReceiveReservation(r: Reservation)
      requires Valid()
      modifies this`reservation
      ensures Valid()
      ensures reservation == Some(r)
    {
      reservation := Some(r);
    }

    method SetStartDate(date: Option<Day>)
      requires Valid()
      modifies this`startDate, this`totalDays, this`totalPrice
      ensures Valid()
      ensures startDate == date && endDate == old(endDate)
      ensures totalDays == ClientNights(date, endDate)
    {
      startDate := date;
      TotalsEffect();
    }

    method SetEndDate(date: Option<Day>)
      requires Valid()
      modifies this`endDate, this`endDateInputEmpty, this`totalDays, this`totalPrice
      ensures Valid()
      ensures endDate == date && startDate == old(startDate)
      ensures !endDateInputEmpty
      ensures totalDays == ClientNights(startDate, date)
    {
      endDate := date;
      endDateInputEmpty := false;
      TotalsEffect();
    }

    /**
     * The guest input's change handler: it stores what was typed as the end
     * date (readAsDate: the date that text parses to, None when it does not
     * parse) and leaves the guest count alone. The end-date input then shows
     * nothing, since a number is not a date string.
     */
    method OnGuestsInput(readAsDate: Option<Day>)
      requires Valid()
      modifies this`endDate, this`endDateInputEmpty, this`totalDays, this`totalPrice
      ensures Valid()
      ensures endDate == readAsDate && startDate == old(startDate)
      ensures endDateInputEmpty
      ensures numberOfGuests == old(numberOfGuests)
    {
      endDate := readAsDate;
      endDateInputEmpty := true;
      TotalsEffect();
    }

    /**
     * The unavailable-dates fetch: it asks for the dates of property routeId,
     * where routeId is a reservation id. When the server fails the list keeps
     * its previous value.
     */
    method FetchUnavailableDates(serverReservations: seq<Reservation>)
      requires Valid()
      modifies this`unavailableDates
      ensures Valid()
      ensures var response := GetUnavailableDates(Some(ReservationsOf(serverReservations, routeId)));
        unavailableDates == if response.Json? then response.unavailableDates else old(unavailableDates)
    {
      var response := GetUnavailableDates(Some(ReservationsOf(serverReservations, routeId)));
      if response.Json? {
        unavailableDates := response.unavailableDates;
      }
    }

    /**
     * Submit: a range that holds a listed day is stopped; otherwise the PUT
     * carries the dates, a guest count of 1, a total price of 0 and the
     * night count of the dates, unless no reservation was loaded, in which
     * case reading its property id throws. The date inputs are required, so
     * the browser submits only when both show a date: neither is empty, and
     * the end date was not last written by the guest input.
     */
    method HandleSubmit() returns (submission: Submission)
      requires Valid()
      requires startDate.Some? && endDate.Some? && !endDateInputEmpty
      ensures (exists d :: startDate.value <= d <= endDate.value && d in unavailableDates) <==> submission == Blocked
      ensures submission == NoReservationLoaded <==>
        reservation == None && forall d :: startDate.value <= d <= endDate.value ==> d !in unavailableDates
      ensures submission.Put? ==>
        && reservation.Some?
        && submission.payload == UpdatePayload(startDate.value, endDate.value, 1, reservation.value.propertyId,
                                               0.0, DayDifference(startDate.value, endDate.value))
    {
      var unavailable := IsDateRangeUnavailable(unavailableDates, startDate.value, endDate.value);
      if unavailable {
        return Blocked;
      }
      if reservation == None {
        return NoReservationLoaded;
      }
      submission := Put(UpdatePayload(startDate.value, endDate.value, numberOfGuests, reservation.value.propertyId,
                                      totalPrice, totalDays.value));
    }
  }

  /**
   * What the update endpoint stores for a PUT of this page: the dates sent,
   * one guest, zero days' worth of price, and the night count as totalDays,
   * whatever the property charges.
   */
  lemma {:induction false} UpdatedReservationIsFree(r: Reservation, p: UpdatePayload)
    requires p.numberOfGuests == 1 && p.totalPrice == 0.0 && p.totalDays == DayDifference(p.startDate, p.endDate)
    ensures var u := Overwrite(r, AsUpdateRequest(p));
      && u.startDate == p.startDate && u.endDate == p.endDate
      && u.numberOfGuests == 1 && u.totalPrice == 0.0 && u.totalDays == u.endDate - u.startDate
      && u.reservationId == r.reservationId && u.propertyId == r.propertyId && u.customerId == r.customerId
  {
  }

  /**
   * A PUT of this page to the reservation with id `id`, as the update
   * endpoint applies it: the table keeps its length and every other row; the
   * updated row keeps its id, property and customer and takes the payload's
   * dates, guest count, day count and total price. The payload's property id
   * is not stored.
   */
  lemma PutStoresPayload(rs: seq<Reservation>, id: int, p: UpdatePayload)
    requires IndexOfId(rs, id) >= 0
    ensures var k := IndexOfId(rs, id);
      var stored := rs[k := Overwrite(rs[k], AsUpdateRequest(p))];
      && |stored| == |rs|
      && (forall j :: 0 <= j < |rs| && j != k ==> stored[j] == rs[j])
      && stored[k].reservationId == id
      && stored[k].propertyId == rs[k].propertyId && stored[k].customerId == rs[k].customerId
      && stored[k].startDate == p.startDate && stored[k].endDate == p.endDate
      && stored[k].numberOfGuests == p.numberOfGuests
      && stored[k].totalDays == p.totalDays && stored[k].totalPrice == p.totalPrice
  {
  }
}
