/**
 * `POST /bookings`, `PUT /bookings/:id/confirm` and `PUT /bookings/:id/cancel`
 * (server.js), and how they move the booked listing's `status`.
 */
module Bookings {
  import opened Wrappers
  import opened Json
  import opened Tables

  /** Any booking that has not been cancelled holds the listing for its student. */
  predicate Active(b: Booking) {
    b.status != BookingStatus.Cancelled
  }

  predicate Bookable(db: Db, listingId: int) {
    listingId in db.listings && db.listings[listingId].status == Available && db.listings[listingId].isVerified
  }

  predicate HasActiveBooking(bookings: map<int, Booking>, student: int, listingId: int) {
    exists k :: k in bookings && bookings[k].studentId == student && bookings[k].listingId == listingId
                && Active(bookings[k])
  }

  /** At most one non-cancelled booking per (student, listing). */
  ghost predicate OneActivePerPair(bookings: map<int, Booking>) {
    forall i, j ::
      (&& i in bookings && j in bookings && Active(bookings[i]) && Active(bookings[j])
       && bookings[i].studentId == bookings[j].studentId
       && bookings[i].listingId == bookings[j].listingId) ==> i == j
  }

  /** The booking exists and so does its listing (the handlers look it up with a JOIN). */
  predicate Found(db: Db, id: int) {
    id in db.bookings && db.bookings[id].listingId in db.listings
  }

  function LandlordOf(db: Db, id: int): int
    requires Found(db, id)
  {
    db.listings[db.bookings[id].listingId].landlordId
  }

  /** The error `POST /bookings` answers with, if any, checked in the handler's order. */
  function CreateBookingRefusal(db: Db, caller: Caller, listingId: int, bookingDate: Value): (e: Option<Error>)
    ensures e == Some(InsufficientPermissions) <==> caller.role != Student
    ensures e == Some(MissingFields) <==> caller.role == Student && (listingId == 0 || !Truthy(bookingDate))
    ensures e == Some(ListingUnavailable) <==>
      caller.role == Student && listingId != 0 && Truthy(bookingDate) && !Bookable(db, listingId)
    ensures e == Some(DuplicateBooking) <==>
      && caller.role == Student && listingId != 0 && Truthy(bookingDate) && Bookable(db, listingId)
      && HasActiveBooking(db.bookings, caller.userId, listingId)
    ensures e.None? <==>
      && caller.role == Student && listingId != 0 && Truthy(bookingDate) && Bookable(db, listingId)
      && !HasActiveBooking(db.bookings, caller.userId, listingId)
  {
    if caller.role != Student then Some(InsufficientPermissions)
    else if listingId == 0 || !Truthy(bookingDate) then Some(MissingFields)
    else if !Bookable(db, listingId) then Some(ListingUnavailable)
    else if HasActiveBooking(db.bookings, caller.userId, listingId) then Some(DuplicateBooking)
    else None
  }

  /** A student books an available, verified listing, which becomes booked. */
  function CreateBooking(db: Db, caller: Caller, listingId: int, bookingDate: Value): (s: Step<int>)
    ensures var refusal := CreateBookingRefusal(db, caller, listingId, bookingDate);
      && (s.result.Err? <==> refusal.Some?)
      && (s.result.Err? ==> s.result.error == refusal.value && s.db == db)
    ensures s.result.Ok? ==>
      && s.db == db.(bookings := s.db.bookings, listings := s.db.listings, nextBookingId := s.db.nextBookingId)
      && s.result.value in s.db.bookings
      && s.db.bookings[s.result.value] == Booking(caller.userId, listingId, bookingDate, BookingStatus.Pending)
      && ChangesOnly(db.listings, s.db.listings, listingId)
      && s.db.listings[listingId] == db.listings[listingId].(status := Booked)
    ensures WellFormed(db) && s.result.Ok? ==> AddsOne(db.bookings, s.db.bookings, s.result.value)
    ensures WellFormed(db) ==> WellFormed(s.db)
    ensures WellFormed(db) && OneActivePerPair(db.bookings) ==> OneActivePerPair(s.db.bookings)
  {
    var refusal := CreateBookingRefusal(db, caller, listingId, bookingDate);
    if refusal.Some? then Step(db, Err(refusal.value))
    else
      var id := db.nextBookingId;
      var b := Booking(caller.userId, listingId, bookingDate, BookingStatus.Pending);
      InsertAtCounter(db.bookings, id, b);
      Step(db.(bookings := db.bookings[id := b], nextBookingId := id + 1,
               listings := db.listings[listingId := db.listings[listingId].(status := Booked)]), Ok(id))
  }

  /**
   * The error `PUT /bookings/:id/confirm` answers with, if any, checked in the
   * handler's order. Only an already confirmed booking is refused: a cancelled one
   * can be confirmed.
   */
  function ConfirmBookingRefusal(db: Db, caller: Caller, id: int): (e: Option<Error>)
    ensures e == Some(InsufficientPermissions) <==> caller.role != Landlord
    ensures e == Some(BookingNotFound) <==> caller.role == Landlord && !Found(db, id)
    ensures e == Some(NotAuthorized) <==>
      caller.role == Landlord && Found(db, id) && LandlordOf(db, id) != caller.userId
    ensures e == Some(AlreadyConfirmed) <==>
      && caller.role == Landlord && Found(db, id) && LandlordOf(db, id) == caller.userId
      && db.bookings[id].status == BookingStatus.Confirmed
    ensures e.None? <==>
      && caller.role == Landlord && Found(db, id) && LandlordOf(db, id) == caller.userId
      && db.bookings[id].status != BookingStatus.Confirmed
  {
    if caller.role != Landlord then Some(InsufficientPermissions)
    else if !Found(db, id) then Some(BookingNotFound)
    else if LandlordOf(db, id) != caller.userId then Some(NotAuthorized)
    else if db.bookings[id].status == BookingStatus.Confirmed then Some(AlreadyConfirmed)
    else None
  }

  /** The owner of the booked listing confirms; nothing but the booking's status changes. */
  function ConfirmBooking(db: Db, caller: Caller, id: int): (s: Step<()>)
    ensures var refusal := ConfirmBookingRefusal(db, caller, id);
      && (s.result.Err? <==> refusal.Some?)
      && (s.result.Err? ==> s.result.error == refusal.value && s.db == db)
    ensures s.result.Ok? ==>
      && s.db == db.(bookings := s.db.bookings)
      && ChangesOnly(db.bookings, s.db.bookings, id)
      && s.db.bookings[id] == db.bookings[id].(status := BookingStatus.Confirmed)
    ensures WellFormed(db) ==> WellFormed(s.db)
    ensures OneActivePerPair(db.bookings) && (s.result.Ok? ==> Active(db.bookings[id]))
            ==> OneActivePerPair(s.db.bookings)
  {
    var refusal := ConfirmBookingRefusal(db, caller, id);
    if refusal.Some? then Step(db, Err(refusal.value))
    else Step(db.(bookings := db.bookings[id := db.bookings[id].(status := BookingStatus.Confirmed)]), Ok(()))
  }

  /** The error `PUT /bookings/:id/cancel` answers with, if any: it has no role check. */
  function CancelBookingRefusal(db: Db, caller: Caller, id: int): (e: Option<Error>)
    ensures e == Some(BookingNotFound) <==> !Found(db, id)
    ensures e == Some(NotAuthorized) <==>
      Found(db, id) && db.bookings[id].studentId != caller.userId && LandlordOf(db, id) != caller.userId
    ensures e == Some(AlreadyCancelled) <==>
      && Found(db, id) && (db.bookings[id].studentId == caller.userId || LandlordOf(db, id) == caller.userId)
      && db.bookings[id].status == BookingStatus.Cancelled
    ensures e.None? <==>
      && Found(db, id) && (db.bookings[id].studentId == caller.userId || LandlordOf(db, id) == caller.userId)
      && db.bookings[id].status != BookingStatus.Cancelled
  {
    if !Found(db, id) then Some(BookingNotFound)
    else if db.bookings[id].studentId != caller.userId && LandlordOf(db, id) != caller.userId then Some(NotAuthorized)
    else if db.bookings[id].status == BookingStatus.Cancelled then Some(AlreadyCancelled)
    else None
  }

  /** Either party may cancel; the listing becomes available again, whoever cancels. */
  function CancelBooking(db: Db, caller: Caller, id: int): (s: Step<()>)
    ensures var refusal := CancelBookingRefusal(db, caller, id);
      && (s.result.Err? <==> refusal.Some?)
      && (s.result.Err? ==> s.result.error == refusal.value && s.db == db)
    ensures s.result.Ok? ==>
      var listingId := db.bookings[id].listingId;
      && s.db == db.(bookings := s.db.bookings, listings := s.db.listings)
      && ChangesOnly(db.bookings, s.db.bookings, id)
      && s.db.bookings[id] == db.bookings[id].(status := BookingStatus.Cancelled)
      && ChangesOnly(db.listings, s.db.listings, listingId)
      && s.db.listings[listingId] == db.listings[listingId].(status := Available)
    ensures WellFormed(db) ==> WellFormed(s.db)
    ensures OneActivePerPair(db.bookings) ==> OneActivePerPair(s.db.bookings)
  {
    var refusal := CancelBookingRefusal(db, caller, id);
    if refusal.Some? then Step(db, Err(refusal.value))
    else
      var b := db.bookings[id];
      Step(db.(bookings := db.bookings[id := b.(status := BookingStatus.Cancelled)],
               listings := db.listings[b.listingId := db.listings[b.listingId].(status := Available)]), Ok(()))
  }
}
