/**
 * The reservation records of the booking site and the date rules shared by
 * the server and the two client pages: the inclusive overlap test, the days a
 * reservation occupies, and the list of unavailable days built from them.
 */
module Booking {

  /** A calendar date as a day number: day d + 1 is the day after day d. */
  type Day = int

  /** The part of a property the booking rules read: its nightly price and guest capacity. */
  datatype Property = Property(propertyId: int, price: real, guest: int)

  datatype Reservation = Reservation(
    reservationId: int,
    propertyId: int,
    customerId: string,
    startDate: Day,
    endDate: Day,
    numberOfGuests: int,
    totalDays: int,
    totalPrice: real)

  /** The booking rule's overlap test: both ends of both ranges are inclusive. */
  predicate Conflicts(startDate: Day, endDate: Day, r: Reservation)
  {
    startDate <= r.endDate && endDate >= r.startDate
  }

  /** Day d is one of the days listed as unavailable because of r. */
  predicate Occupies(r: Reservation, d: Day)
  {
    r.startDate <= d <= r.endDate
  }

  /** Whole days from one midnight date to another (TimeSpan.Days of their difference). */
  function DayDifference(startDate: Day, endDate: Day): int
  {
    endDate - startDate
  }

  /** Price of a stay: nightly price times number of days. */
  function StayPrice(price: real, days: int): real
  {
    price * days as real
  }

  /** No two reservations of one property overlap under the inclusive test. */
  predicate NoDoubleBooking(rs: seq<Reservation>)
  {
    forall i, j :: 0 <= i < |rs| && 0 <= j < |rs| && i != j && rs[i].propertyId == rs[j].propertyId
      ==> !Conflicts(rs[i].startDate, rs[i].endDate, rs[j])
  }

  /** The overlap test does not depend on which range is the candidate. */
  lemma ConflictsSymmetric(a: Reservation, b: Reservation)
    ensures Conflicts(a.startDate, a.endDate, b) <==> Conflicts(b.startDate, b.endDate, a)
  {
  }

  /** The reservations of one property, in store order. */
  function ReservationsOf(rs: seq<Reservation>, propertyId: int): (of: seq<Reservation>)
    ensures forall r :: r in of <==> r in rs && r.propertyId == propertyId
    ensures |of| <= |rs|
  {
    if rs == [] then []
    else if rs[0].propertyId == propertyId then [rs[0]] + ReservationsOf(rs[1..], propertyId)
    else ReservationsOf(rs[1..], propertyId)
  }

  /** Position of the reservation with the given id, or -1 when there is none. */
  function IndexOfId(rs: seq<Reservation>, id: int): (k: int)
    ensures -1 <= k < |rs|
    ensures k == -1 <==> forall r :: r in rs ==> r.reservationId != id
    ensures 0 <= k ==> rs[k].reservationId == id
  {
    if rs == [] then -1
    else if rs[0].reservationId == id then 0
    else
      var k := IndexOfId(rs[1..], id);
      if k == -1 then -1 else k + 1
  }

  /**
   * Adding a reservation that conflicts with no reservation of its property
   * keeps the store free of double bookings.
   */
  lemma CreatePreservesNoDoubleBooking(rs: seq<Reservation>, n: Reservation)
    requires NoDoubleBooking(rs)
    requires forall r :: r in ReservationsOf(rs, n.propertyId) ==> !Conflicts(n.startDate, n.endDate, r)
    ensures NoDoubleBooking(rs + [n])
  {
    var rs' := rs + [n];
    forall i, j | 0 <= i < |rs'| && 0 <= j < |rs'| && i != j && rs'[i].propertyId == rs'[j].propertyId
      ensures !Conflicts(rs'[i].startDate, rs'[i].endDate, rs'[j])
    {
      if i == |rs| {
        assert rs[j] in ReservationsOf(rs, n.propertyId);
      } else if j == |rs| {
        assert rs[i] in ReservationsOf(rs, n.propertyId);
        ConflictsSymmetric(rs[i], n);
      }
    }
  }

  /** Removing one reservation keeps the store free of double bookings. */
  lemma RemovePreservesNoDoubleBooking(rs: seq<Reservation>, k: nat)
    requires NoDoubleBooking(rs)
    requires k < |rs|
    ensures NoDoubleBooking(rs[..k] + rs[k + 1..])
  {
    var rs' := rs[..k] + rs[k + 1..];
    forall i, j | 0 <= i < |rs'| && 0 <= j < |rs'| && i != j && rs'[i].propertyId == rs'[j].propertyId
      ensures !Conflicts(rs'[i].startDate, rs'[i].endDate, rs'[j])
    {
      var i0 := if i < k then i else i + 1;
      var j0 := if j < k then j else j + 1;
      assert rs'[i] == rs[i0] && rs'[j] == rs[j0];
    }
  }

  /** Enumerable.Range(0, count) shifted to start: count consecutive days. */
  function DayRange(start: Day, count: nat): (days: seq<Day>)
    ensures |days| == count
    ensures forall d :: d in days <==> start <= d < start + count
    decreases count
  {
    if count == 0 then [] else [start] + DayRange(start + 1, count - 1)
  }

  /** The day count of a reservation's date list is not negative. */
  predicate Enumerable(r: Reservation)
  {
    r.endDate - r.startDate + 1 >= 0
  }

  /** The days of one reservation's date list: StartDate through EndDate, both included. */
  function DaysOf(r: Reservation): (days: seq<Day>)
    requires Enumerable(r)
    ensures |days| == r.endDate - r.startDate + 1
    ensures forall d :: d in days <==> Occupies(r, d)
  {
    DayRange(r.startDate, r.endDate - r.startDate + 1)
  }

  /** Every reservation's date list, concatenated in order; duplicates are kept. */
  function ExpandAll(rs: seq<Reservation>): (days: seq<Day>)
    requires forall r :: r in rs ==> Enumerable(r)
    ensures forall d :: d in days <==> exists r :: r in rs && Occupies(r, d)
  {
    if rs == [] then [] else DaysOf(rs[0]) + ExpandAll(rs[1..])
  }

  /** The date list of two batches of reservations is the first batch's list followed by the second's. */
  lemma {:induction false} ExpandAllAppend(a: seq<Reservation>, b: seq<Reservation>)
    requires forall r :: r in a ==> Enumerable(r)
    requires forall r :: r in b ==> Enumerable(r)
    ensures ExpandAll(a + b) == ExpandAll(a) + ExpandAll(b)
  {
    if a == [] {
      assert a + b == b;
    } else {
      assert (a + b)[1..] == a[1..] + b;
      ExpandAllAppend(a[1..], b);
    }
  }

  /** The length of the date list is the sum of the reservations' day counts. */
  function DayCount(rs: seq<Reservation>): int
  {
    if rs == [] then 0 else (rs[0].endDate - rs[0].startDate + 1) + DayCount(rs[1..])
  }

  lemma {:induction false} ExpandAllLength(rs: seq<Reservation>)
    requires forall r :: r in rs ==> Enumerable(r)
    ensures |ExpandAll(rs)| == DayCount(rs)
  {
    if rs != [] {
      ExpandAllLength(rs[1..]);
    }
  }

  /** Which days are listed does not depend on the order of the reservations. */
  lemma UnavailableDaySetIgnoresOrder(rs: seq<Reservation>, rs': seq<Reservation>)
    requires multiset(rs) == multiset(rs')
    requires forall r :: r in rs ==> Enumerable(r)
    ensures forall r :: r in rs' ==> Enumerable(r)
    ensures forall d :: d in ExpandAll(rs) <==> d in ExpandAll(rs')
  {
    assert forall r :: r in rs <==> r in multiset(rs);
    assert forall r :: r in rs' <==> r in multiset(rs');
  }

  /**
   * For a candidate range that is not reversed and a reservation that is not
   * reversed, the inclusive overlap test holds exactly when some day of the
   * candidate range is one of the reservation's listed days.
   */
  lemma ConflictIffSharedDay(startDate: Day, endDate: Day, r: Reservation)
    requires startDate <= endDate
    requires r.startDate <= r.endDate
    ensures Conflicts(startDate, endDate, r) <==> exists d :: startDate <= d <= endDate && d in DaysOf(r)
  {
    if Conflicts(startDate, endDate, r) {
      var d := if startDate < r.startDate then r.startDate else startDate;
      assert d in DaysOf(r);
    }
  }
}
