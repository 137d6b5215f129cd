/**
 * How the client-side date check relates to the server's booking rule. The
 * client walks the candidate days and looks each up in the list the server
 * built from the property's reservations; the server tests every
 * reservation with the inclusive overlap test. They agree when neither the
 * candidate range nor any of the property's reservations is reversed; the
 * lemmas after the first one name inputs outside those limits on which they
 * differ.
 */
module Availability {
  import opened Wrappers
  import opened Booking
  import opened ReservationController

  /**
   * For a candidate range that is not reversed, when none of the property's
   * reservations is reversed (other properties' rows may be), some candidate
   * day is in the property's unavailable-date list exactly when the booking
   * endpoint finds a conflicting reservation.
   */
  lemma ClientCheckMatchesBookingRule(store: seq<Reservation>, propertyId: int, startDate: Day, endDate: Day)
    requires startDate <= endDate
    requires forall r :: r in store && r.propertyId == propertyId ==> r.startDate <= r.endDate
    ensures var response := GetUnavailableDates(Some(ReservationsOf(store, propertyId)));
      && response.Json?
      && ((exists d :: startDate <= d <= endDate && d in response.unavailableDates) <==>
          (exists r :: r in store && r.propertyId == propertyId && Conflicts(startDate, endDate, r)))
  {
    var of := ReservationsOf(store, propertyId);
    var response := GetUnavailableDates(Some(of));
    if exists d :: startDate <= d <= endDate && d in response.unavailableDates {
      var d :| startDate <= d <= endDate && d in response.unavailableDates;
      var r :| r in of && Occupies(r, d);
      assert Conflicts(startDate, endDate, r);
    }
    if exists r :: r in store && r.propertyId == propertyId && Conflicts(startDate, endDate, r) {
      var r :| r in store && r.propertyId == propertyId && Conflicts(startDate, endDate, r);
      ConflictIffSharedDay(startDate, endDate, r);
      var d :| startDate <= d <= endDate && d in DaysOf(r);
      assert r in of && Occupies(r, d);
      assert d in response.unavailableDates;
    }
  }

  /**
   * A reversed candidate range passes the client check whatever the list
   * holds, yet the booking endpoint can still reject it: days 10 back to 5
   * against a reservation of days 3 to 12.
   */
  lemma ReversedRangeRejectedOnlyByServer(unavailableDates: seq<Day>)
    ensures !exists d :: 10 <= d <= 5 && d in unavailableDates
    ensures Conflicts(10, 5, Reservation(1, 1, "1", 3, 12, 1, 9, 900.0))
  {
  }

  /**
   * A reservation whose end is the day before its start lists no days, yet
   * it blocks the two-day range around it at the booking endpoint.
   */
  lemma InvertedReservationBlocksUnlistedDays(r: Reservation)
    requires r.endDate == r.startDate - 1
    ensures DaysOf(r) == []
    ensures GetUnavailableDates(Some([r])) == Json([])
    ensures Conflicts(r.endDate, r.startDate, r)
  {
    assert ExpandAll([r]) == DaysOf(r) + ExpandAll([]);
  }

  /**
   * A reservation that starts and ends on the same day costs nothing and
   * counts zero days, yet blocks that day.
   */
  lemma SameDayReservationBlocksOneDay(r: Reservation, price: real)
    requires r.startDate == r.endDate
    ensures DayDifference(r.startDate, r.endDate) == 0 && StayPrice(price, 0) == 0.0
    ensures DaysOf(r) == [r.startDate]
  {
    assert DayRange(r.startDate + 1, 0) == [];
  }

  /**
   * Checkout day and check-in day may not coincide: a candidate starting on
   * the last day of a stay conflicts with it; one starting the day after
   * does not.
   */
  lemma SharedBoundaryDayConflicts(r: Reservation, endDate: Day)
    requires r.startDate <= r.endDate < endDate
    ensures Conflicts(r.endDate, endDate, r)
    ensures !Conflicts(r.endDate + 1, endDate, r)
  {
  }

  /**
   * The update page checks the dates of property routeId, where routeId is
   * the reservation's own id. When that id is also the id of the
   * reservation's property, the reservation's own days are in the list, so
   * entering its current dates again is stopped by the page.
   */
  lemma SelfConflictWhenIdsCoincide(store: seq<Reservation>, r: Reservation)
    requires r in store && r.reservationId == r.propertyId
    requires r.startDate <= r.endDate
    requires forall x :: x in store && x.propertyId == r.propertyId ==> Enumerable(x)
    ensures var response := GetUnavailableDates(Some(ReservationsOf(store, r.reservationId)));
      && response.Json?
      && exists d :: r.startDate <= d <= r.endDate && d in response.unavailableDates
  {
    var response := GetUnavailableDates(Some(ReservationsOf(store, r.reservationId)));
    assert r in ReservationsOf(store, r.reservationId) && Occupies(r, r.startDate);
    assert r.startDate in response.unavailableDates;
  }

  /**
   * The update page of reservation 5 (property 1) is given the dates of
   * property 5: it stops a move onto property 5's days, which property 1 has
   * free, and lets through a move onto days property 1 has booked, which
   * the booking rule would reject.
   */
  lemma UpdatePageChecksWrongProperty()
    ensures var a := Reservation(5, 1, "2", 10, 12, 1, 2, 200.0);
            var b := Reservation(6, 5, "1", 20, 21, 1, 1, 100.0);
            var c := Reservation(7, 1, "1", 15, 16, 1, 1, 100.0);
            var list := GetUnavailableDates(Some(ReservationsOf([a, b, c], 5)));
            && list == Json([20, 21])
            && ReservationsOf([a, b, c], 1) == [a, c]
            && Conflicts(15, 16, c)
  {
    var a := Reservation(5, 1, "2", 10, 12, 1, 2, 200.0);
    var b := Reservation(6, 5, "1", 20, 21, 1, 1, 100.0);
    var c := Reservation(7, 1, "1", 15, 16, 1, 1, 100.0);
    assert [a, b, c][1..] == [b, c];
    assert [b, c][1..] == [c];
    assert [c][1..] == [];
    assert ReservationsOf([c], 5) == [];
    assert ReservationsOf([b, c], 5) == [b];
    assert ReservationsOf([a, b, c], 5) == [b];
    assert ReservationsOf([c], 1) == [c];
    assert ReservationsOf([b, c], 1) == [c];
    assert DayRange(21, 1) == [21] by {
      assert DayRange(22, 0) == [];
    }
    assert DaysOf(b) == [20, 21];
    assert ExpandAll([b]) == DaysOf(b) + ExpandAll([]);
  }
}
