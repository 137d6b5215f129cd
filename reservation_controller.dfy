/**
 * The server side of booking: the reservation endpoints of the Web API over
 * an in-memory reservation store. CompleteReservation applies the booking
 * rule (customer and property lookup, guest capacity, inclusive overlap scan,
 * derived totals); UpdateReservation overwrites a reservation with what the
 * client sent; DeleteReservation removes one; GetUnavailableDates lists the
 * days a property's reservations cover.
 */
module ReservationController {
  import opened Wrappers
  import opened Booking

  /** The customer id the booking endpoint uses for the signed-in user. */
  const UserId: string := "2"

  datatype Rejection = TooManyGuests | DateUnavailable | AddFailed | UpdateFailed | DeleteFailed

  /** The HTTP result of an endpoint: 200 with a new id, 200, 404 or 400 with its reason. */
  datatype Response = Created(reservationId: int) | Done | NotFound | BadRequest(reason: Rejection)

  /** The answer of the unavailable-dates endpoint: the day list, or an unhandled exception. */
  datatype DatesResponse = Json(unavailableDates: seq<Day>) | ServerError

  /** The fields of an update request that the endpoint copies into the stored reservation. */
  datatype UpdateRequest = UpdateRequest(startDate: Day, endDate: Day, numberOfGuests: int, totalDays: int, totalPrice: real)

  /**
   * The overlap scan of the booking endpoint: a walk over the property's
   * reservations that stops at the first one the candidate range conflicts with.
   */
  method HasConflict(existing: seq<Reservation>, startDate: Day, endDate: Day) returns (conflict: bool)
    ensures conflict <==> exists r :: r in existing && Conflicts(startDate, endDate, r)
  {
    var i := 0;
    while i < |existing|
      invariant 0 <= i <= |existing|
      invariant forall k :: 0 <= k < i ==> !Conflicts(startDate, endDate, existing[k])
    {
      if Conflicts(startDate, endDate, existing[i]) {
        return true;
      }
      i := i + 1;
    }
    return false;
  }

  /**
   * The unavailable-dates endpoint on what the repository yields for a
   * property: no list gives an empty list; otherwise every reservation
   * contributes StartDate through EndDate, in order, duplicates kept. A
   * reservation whose day count (EndDate - StartDate) + 1 is negative makes
   * Enumerable.Range throw, and the endpoint fails.
   */
  function GetUnavailableDates(fetched: Option<seq<Reservation>>): (response: DatesResponse)
    ensures fetched.None? ==> response == Json([])
    ensures fetched.Some? ==> (response.Json? <==> forall r :: r in fetched.value ==> Enumerable(r))
    ensures fetched.Some? && response.Json? ==>
      forall d :: d in response.unavailableDates <==> exists r :: r in fetched.value && Occupies(r, d)
  {
    match fetched
    case None => Json([])
    case Some(rs) =>
      if forall r :: r in rs ==> Enumerable(r) then Json(ExpandAll(rs)) else ServerError
  }

  /** The stored reservation after an update: five fields from the request, the rest kept. */
  function Overwrite(r: Reservation, request: UpdateRequest): (u: Reservation)
    ensures u.reservationId == r.reservationId && u.propertyId == r.propertyId && u.customerId == r.customerId
  {
    r.(startDate := request.startDate, endDate := request.endDate, numberOfGuests := request.numberOfGuests,
       totalDays := request.totalDays, totalPrice := request.totalPrice)
  }

  /** Reservation ids are distinct and below the next id the store hands out. */
  predicate IdsValid(rs: seq<Reservation>, nextId: int)
  {
    && (forall i, j :: 0 <= i < j < |rs| ==> rs[i].reservationId != rs[j].reservationId)
    && (forall r :: r in rs ==> r.reservationId < nextId)
  }

  /** Appending a row with the next id, and moving the next id on, keeps the ids distinct and below it. */
  lemma IdsValidAfterAppend(rs: seq<Reservation>, nextId: int, n: Reservation)
    requires IdsValid(rs, nextId)
    requires n.reservationId == nextId
    ensures IdsValid(rs + [n], nextId + 1)
  {
    var rs' := rs + [n];
    forall i, j | 0 <= i < j < |rs'|
      ensures rs'[i].reservationId != rs'[j].reservationId
    {
      if j == |rs| {
        assert rs[i] in rs;
      }
    }
  }

  /** Removing a row keeps the ids distinct and below the next id. */
  lemma IdsValidAfterRemove(rs: seq<Reservation>, nextId: int, k: nat)
    requires IdsValid(rs, nextId)
    requires k < |rs|
    ensures IdsValid(rs[..k] + rs[k + 1..], nextId)
  {
    var rs' := rs[..k] + rs[k + 1..];
    forall i, j | 0 <= i < j < |rs'|
      ensures rs'[i].reservationId != rs'[j].reservationId
    {
      var i0 := if i < k then i else i + 1;
      var j0 := if j < k then j else j + 1;
      assert rs'[i] == rs[i0] && rs'[j] == rs[j0];
    }
    forall r | r in rs'
      ensures r.reservationId < nextId
    {
      var i :| 0 <= i < |rs'| && rs'[i] == r;
      assert r == rs[if i < k then i else i + 1];
    }
  }

  /**
   * The reservation store behind the endpoints: the reservations table, the
   * properties and customers it looks up, and the id the next insert receives.
   */
  class ReservationStore {
    var reservations: seq<Reservation>
    var properties: map<int, Property>
    var customers: set<string>
    var nextId: int

    ghost predicate Valid()
      reads this
    {
      IdsValid(reservations, nextId)
    }

    /** A store holding the given rows; the seed rows need not be free of double bookings. */
    constructor (initial: seq<Reservation>, properties: map<int, Property>, customers: set<string>, nextId: int)
      requires IdsValid(initial, nextId)
      ensures Valid()
      ensures this.reservations == initial && this.properties == properties
      ensures this.customers == customers && this.nextId == nextId
    {
      this.reservations := initial;
      this.properties := properties;
      this.customers := customers;
      this.nextId := nextId;
    }

    /** The booking endpoint: POST CompleteReservation/{id} with a date range and a guest count. */
    method CompleteReservation(id: int, startDate: Day, endDate: Day, numberOfGuests: int, addSucceeds: bool)
      returns (response: Response)
      requires Valid()
      modifies this
      ensures Valid()
      ensures properties == old(properties) && customers == old(customers)
      // unknown customer or unknown property: 404, nothing stored
      ensures UserId !in customers || id !in properties ==>
        response == NotFound && reservations == old(reservations) && nextId == old(nextId)
      // more guests than the property takes (exactly its capacity is fine): 400, nothing stored
      ensures UserId in customers && id in properties && numberOfGuests > properties[id].guest ==>
        response == BadRequest(TooManyGuests) && reservations == old(reservations) && nextId == old(nextId)
      // some reservation of the property overlaps, shared boundary days included: 400, nothing stored
      ensures (&& UserId in customers && id in properties && numberOfGuests <= properties[id].guest
               && exists r :: r in old(reservations) && r.propertyId == id && Conflicts(startDate, endDate, r)) ==>
        response == BadRequest(DateUnavailable) && reservations == old(reservations) && nextId == old(nextId)
      // otherwise exactly one new row with the derived totals, unless the insert fails
      ensures (&& UserId in customers && id in properties && numberOfGuests <= properties[id].guest
               && forall r :: r in old(reservations) && r.propertyId == id ==> !Conflicts(startDate, endDate, r)) ==>
        if addSucceeds then
          && response == Created(old(nextId))
          && nextId == old(nextId) + 1
          && reservations == old(reservations) + [Reservation(old(nextId), id, UserId, startDate, endDate, numberOfGuests,
                                                              endDate - startDate,
                                                              StayPrice(properties[id].price, endDate - startDate))]
        else
          response == BadRequest(AddFailed) && reservations == old(reservations) && nextId == old(nextId)
      ensures NoDoubleBooking(old(reservations)) ==> NoDoubleBooking(reservations)
    {
      if UserId !in customers {
        return NotFound;
      }
      if id !in properties {
        return NotFound;
      }
      var property := properties[id];
      if numberOfGuests > property.guest {
        return BadRequest(TooManyGuests);
      }
      var existing := ReservationsOf(reservations, id);
      var conflict := HasConflict(existing, startDate, endDate);
      if conflict {
        return BadRequest(DateUnavailable);
      }
      var totalDays := DayDifference(startDate, endDate);
      var reservation := Reservation(nextId, id, UserId, startDate, endDate, numberOfGuests,
                                     totalDays, StayPrice(property.price, totalDays));
      if !addSucceeds {
        return BadRequest(AddFailed);
      }
      var grown := reservations + [reservation];
      IdsValidAfterAppend(reservations, nextId, reservation);
      if NoDoubleBooking(reservations) {
        CreatePreservesNoDoubleBooking(reservations, reservation);
      }
      reservations := grown;
      nextId := nextId + 1;
      response := Created(reservation.reservationId);
    }

    /**
     * The update endpoint: PUT UpdateReservation/{id}. No overlap and no
     * capacity check; the request's totals are stored as sent.
     */
    method UpdateReservation(id: int, request: UpdateRequest, updateSucceeds: bool) returns (response: Response)
      requires Valid()
      modifies this
      ensures Valid()
      ensures properties == old(properties) && customers == old(customers) && nextId == old(nextId)
      ensures IndexOfId(old(reservations), id) == -1 ==>
        response == NotFound && reservations == old(reservations)
      ensures var k := IndexOfId(old(reservations), id);
        0 <= k ==>
          if updateSucceeds then
            response == Done && reservations == old(reservations)[k := Overwrite(old(reservations)[k], request)]
          else
            response == BadRequest(UpdateFailed) && reservations == old(reservations)
    {
      var k := IndexOfId(reservations, id);
      if k == -1 {
        return NotFound;
      }
      if !updateSucceeds {
        return BadRequest(UpdateFailed);
      }
      var updated := Overwrite(reservations[k], request);
      reservations := reservations[k := updated];
      response := Done;
    }

    /** The delete endpoint: DELETE DeleteReservation/{id}. */
    method DeleteReservation(id: int, deleteSucceeds: bool) returns (response: Response)
      requires Valid()
      modifies this
      ensures Valid()
      ensures properties == old(properties) && customers == old(customers) && nextId == old(nextId)
      ensures IndexOfId(old(reservations), id) == -1 ==>
        response == NotFound && reservations == old(reservations)
      ensures var k := IndexOfId(old(reservations), id);
        0 <= k ==>
          if deleteSucceeds then
            response == Done && reservations == old(reservations)[..k] + old(reservations)[k + 1..]
          else
            response == BadRequest(DeleteFailed) && reservations == old(reservations)
      ensures NoDoubleBooking(old(reservations)) ==> NoDoubleBooking(reservations)
    {
      var k := IndexOfId(reservations, id);
      if k == -1 {
        return NotFound;
      }
      if !deleteSucceeds {
        return BadRequest(DeleteFailed);
      }
      var remaining := reservations[..k] + reservations[k + 1..];
      IdsValidAfterRemove(reservations, nextId, k);
      if NoDoubleBooking(reservations) {
        RemovePreservesNoDoubleBooking(reservations, k);
      }
      reservations := remaining;
      response := Done;
    }
  }

  /**
   * An update can double-book: two reservations of one property that do not
   * overlap, and an update of the second onto the first one's last day, which
   * the endpoint stores.
   */
  lemma UpdateCanDoubleBook()
    ensures var a := Reservation(1, 7, UserId, 10, 14, 2, 4, 400.0);
            var b := Reservation(2, 7, UserId, 20, 22, 2, 2, 200.0);
            var request := UpdateRequest(14, 16, 2, 2, 200.0);
            && NoDoubleBooking([a, b])
            && IndexOfId([a, b], 2) == 1
            && !NoDoubleBooking([a, b][1 := Overwrite(b, request)])
  {
    var a := Reservation(1, 7, UserId, 10, 14, 2, 4, 400.0);
    var b := Reservation(2, 7, UserId, 20, 22, 2, 2, 200.0);
    var updated := [a, b][1 := Overwrite(b, UpdateRequest(14, 16, 2, 2, 200.0))];
    assert Conflicts(updated[1].startDate, updated[1].endDate, updated[0]);
  }

  /**
   * The date list is not deduplicated: two reservations over the same two
   * days list each day twice.
   */
  lemma UnavailableDatesKeepDuplicates()
    ensures var r := Reservation(1, 3, "1", 8, 9, 1, 1, 100.0);
            GetUnavailableDates(Some([r, r])) == Json([8, 9, 8, 9])
  {
    var r := Reservation(1, 3, "1", 8, 9, 1, 1, 100.0);
    assert DayRange(9, 1) == [9] by {
      assert DayRange(10, 0) == [];
    }
    assert DaysOf(r) == [8, 9];
    assert [r, r][1..] == [r];
    assert ExpandAll([r]) == DaysOf(r) + ExpandAll([]);
  }

  /**
   * A stored reservation whose end lies more than one day before its start
   * makes the unavailable-dates endpoint fail; the booking endpoint stores
   * such a reservation, because it never compares end with start.
   */
  lemma ReversedReservationBreaksDateList(r: Reservation)
    requires r.endDate < r.startDate - 1
    ensures GetUnavailableDates(Some([r])) == ServerError
  {
    assert !Enumerable([r][0]);
  }
}
