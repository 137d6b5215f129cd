/**
 * The booking box of the property page: the form state, the effect that
 * prices the stay, the day-by-day walk that checks a range against the
 * server's unavailable-date list, and the submit gate in front of the
 * booking request. The update page reuses the day walk and the nights
 * formula.
 */
module ReservationBox {
  import opened Wrappers
  import opened Booking
  import opened ReservationController

  /** Milliseconds in a day, the divisor of the nights formula. */
  const MsPerDay: int := 1000 * 3600 * 24

  /** Math.ceil(a / b) for a positive divisor. */
  function CeilDiv(a: int, b: int): int
    requires b > 0
  {
    -((-a) / b)
  }

  /**
   * days = Math.ceil((new Date(end) - new Date(start)) / MsPerDay). Both
   * inputs parse as midnight, so the difference is a whole number of days;
   * an empty input gives NaN, modelled as None.
   */
  function ClientNights(startDate: Option<Day>, endDate: Option<Day>): (days: Option<int>)
    ensures days.Some? <==> startDate.Some? && endDate.Some?
    ensures days.Some? ==> days.value == DayDifference(startDate.value, endDate.value)
  {
    if startDate.Some? && endDate.Some? then
      Some(CeilDiv((endDate.value - startDate.value) * MsPerDay, MsPerDay))
    else
      None
  }

  /** unavailableDates.includes(date). */
  function IsDateUnavailable(unavailableDates: seq<Day>, date: Day): bool
  {
    date in unavailableDates
  }

  /**
   * The walk from startDate to endDate, one day at a time, that stops at the
   * first listed day. Both ends count; a reversed range is never unavailable.
   */
  method IsDateRangeUnavailable(unavailableDates: seq<Day>, startDate: Day, endDate: Day) returns (unavailable: bool)
    ensures unavailable <==> exists d :: startDate <= d <= endDate && d in unavailableDates
    ensures startDate > endDate ==> !unavailable
  {
    var dt := startDate;
    while dt <= endDate
      invariant startDate <= dt
      invariant forall d :: startDate <= d < dt ==> d !in unavailableDates
      decreases endDate - dt
    {
      if IsDateUnavailable(unavailableDates, dt) {
        return true;
      }
      dt := dt + 1;
    }
    return false;
  }

  /** The form fields the booking request posts. */
  datatype BookingRequest = BookingRequest(startDate: Day, endDate: Day, numberOfGuests: int)

  /** The booking box's state. A date of None is an empty date input. */
  class ReservationForm {
    const propertyId: int
    /** The day the box was mounted, the `min` of both date inputs. */
    const today: Day
    var startDate: Option<Day>
    var endDate: Option<Day>
    var pricePerNight: real
    var totalPrice: real
    var numberOfGuests: int
    var unavailableDates: seq<Day>
    var formError: string

    /** The mounted box: the default stay runs from three to ten days after today. */
    constructor (propertyId: int, today: Day)
      ensures this.propertyId == propertyId && this.today == today
      ensures startDate == Some(today + 3) && endDate == Some(today + 10)
      ensures ClientNights(startDate, endDate) == Some(7)
      ensures pricePerNight == 0.0 && totalPrice == 0.0 && numberOfGuests == 1
      ensures unavailableDates == [] && formError == ""
    {
      this.propertyId := propertyId;
      this.today := today;
      startDate := Some(today + 3);
      endDate := Some(today + 10);
      pricePerNight := 0.0;
      totalPrice := 0.0;
      numberOfGuests := 1;
      unavailableDates := [];
      formError := "";
    }

    /** The effect on the dates and the price: a positive night count reprices the stay, anything else keeps the old total. */
    method PriceEffect()
      modifies this`totalPrice
      ensures var days := ClientNights(startDate, endDate);
        totalPrice == if days.Some? && days.value > 0 then StayPrice(pricePerNight, days.value) else old(totalPrice)
    {
      var days := ClientNights(startDate, endDate);
      if days.Some? && days.value > 0 {
        totalPrice := StayPrice(pricePerNight, days.value);
      }
    }

    method SetStartDate(date: Option<Day>)
      modifies this`startDate, this`totalPrice
      ensures startDate == date
      ensures var days := ClientNights(date, endDate);
        totalPrice == if days.Some? && days.value > 0 then StayPrice(pricePerNight, days.value) else old(totalPrice)
    {
      startDate := date;
      PriceEffect();
    }

    method SetEndDate(date: Option<Day>)
      modifies this`endDate, this`totalPrice
      ensures endDate == date
      ensures var days := ClientNights(startDate, date);
        totalPrice == if days.Some? && days.value > 0 then StayPrice(pricePerNight, days.value) else old(totalPrice)
    {
      endDate := date;
      PriceEffect();
    }

    /** The property-details fetch delivers the nightly price. */
    method SetPricePerNight(price: real)
      modifies this`pricePerNight, this`totalPrice
      ensures pricePerNight == price
      ensures var days := ClientNights(startDate, endDate);
        totalPrice == if days.Some? && days.value > 0 then StayPrice(price, days.value) else old(totalPrice)
    {
      pricePerNight := price;
      PriceEffect();
    }

    method SetNumberOfGuests(guests: int)
      modifies this`numberOfGuests
      ensures numberOfGuests == guests
    {
      numberOfGuests := guests;
    }

    /**
     * The unavailable-dates fetch for this box's property; when the server
     * fails the list keeps its previous value.
     */
    method FetchUnavailableDates(serverReservations: seq<Reservation>)
      modifies this`unavailableDates
      ensures var response := GetUnavailableDates(Some(ReservationsOf(serverReservations, propertyId)));
        unavailableDates == if response.Json? then response.unavailableDates else old(unavailableDates)
    {
      var response := GetUnavailableDates(Some(ReservationsOf(serverReservations, propertyId)));
      if response.Json? {
        unavailableDates := response.unavailableDates;
      }
    }

    /**
     * Submit: a range that holds a listed day sets the error and posts
     * nothing; otherwise the dates and guest count are posted. The browser
     * submits the form only when its inputs pass their constraints: both
     * dates are required and not before today, and at least one guest.
     */
    method HandleSubmit() returns (post: Option<BookingRequest>)
      requires startDate.Some? && endDate.Some?
      requires startDate.value >= today && endDate.value >= today && numberOfGuests >= 1
      modifies this`formError
      ensures (exists d :: startDate.value <= d <= endDate.value && d in unavailableDates) ==>
        post == None && formError == "Unavailable dates. Please try again."
      ensures (forall d :: startDate.value <= d <= endDate.value ==> d !in unavailableDates) ==>
        post == Some(BookingRequest(startDate.value, endDate.value, numberOfGuests)) && formError == ""
    {
      formError := "";
      var unavailable := IsDateRangeUnavailable(unavailableDates, startDate.value, endDate.value);
      if unavailable {
        formError := "Unavailable dates. Please try again.";
        ghost var d :| startDate.value <= d <= endDate.value && d in unavailableDates;
        return None;
      }
      post := Some(BookingRequest(startDate.value, endDate.value, numberOfGuests));
    }
  }

  /**
   * The total is not recomputed for a range of zero nights: after a 7-night
   * default stay at 1000 a night, moving the end date onto the start date
   * leaves the 7-night total on display.
   */
  method StaleTotalAfterZeroNightRange(today: Day) returns (nights: Option<int>, total: real)
    ensures nights == Some(0)
    ensures total == 7000.0
  {
    var form := new ReservationForm(1, today);
    form.SetPricePerNight(1000.0);
    form.SetEndDate(Some(today + 3));
    nights := ClientNights(form.startDate, form.endDate);
    total := form.totalPrice;
  }
}
