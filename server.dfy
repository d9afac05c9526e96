/**
 * The handlers of server.js run against one in-memory store: each table is a
 * map field of `Store` that the handler reassigns, each auto-increment counter
 * an integer field. Every handler first asks the refusal function of its
 * route which of the source's checks, in the source's order, fails; if none
 * does, it writes its rows in place. Its contract ties the new state and the
 * response to the pure transition of the same name, whose own contract says
 * what the handler guarantees.
 */
module Server {
  import opened Wrappers
  import opened Json
  import opened Sanitize
  import opened Tables
  import Accounts
  import Listings
  import Bookings
  import Verifications
  import StudentChecks
  import Messaging

  /**
   * The `updates` array of `PUT /listings/:id`, built one `push` at a time in
   * the handler's order.
   */
  method BuildUpdates(e: Listings.ListingEdit) returns (updates: seq<Listings.Update>)
    ensures updates == Listings.UpdatesFor(e)
  {
    updates := [];
    if Truthy(e.title) { updates := updates + [Listings.SetTitle(SanitizeInput(e.title))]; }
    if Truthy(e.description) { updates := updates + [Listings.SetDescription(SanitizeInput(e.description))]; }
    if Truthy(e.location) { updates := updates + [Listings.SetLocation(SanitizeInput(e.location))]; }
    if Listings.HasPrice(e) { updates := updates + [Listings.SetPrice(e.parsedPrice)]; }
    if Truthy(e.amenities) { updates := updates + [Listings.SetAmenities(SanitizeInput(e.amenities))]; }
    if Listings.HasProximity(e) { updates := updates + [Listings.SetProximity(e.proximityToCampus)]; }
    if Truthy(e.availableFrom) { updates := updates + [Listings.SetAvailableFrom(e.availableFrom)]; }
    if Truthy(e.status) { updates := updates + [Listings.SetStatus(e.status)]; }
  }

  /** `UPDATE Listing SET <updates, in order>` on one row. */
  method RunUpdates(l: Listing, updates: seq<Listings.Update>) returns (row: Listing)
    ensures row == Listings.ApplyAll(l, updates)
  {
    row := l;
    var i := 0;
    while i < |updates|
      invariant 0 <= i <= |updates|
      invariant row == Listings.ApplyAll(l, updates[..i])
    {
      assert updates[..i + 1][..i] == updates[..i];
      row := Listings.Apply(row, updates[i]);
      i := i + 1;
    }
    assert updates[..i] == updates;
  }

  class Store {
    var users: map<int, User>
    var listings: map<int, Listing>
    var bookings: map<int, Booking>
    var verifications: map<int, Verification>
    var studentVerifications: map<int, StudentVerification>
    var messages: map<int, Message>
    var nextUserId: int
    var nextListingId: int
    var nextBookingId: int
    var nextVerificationId: int
    var nextStudentVerificationId: int

    /** The tables as one value. */
    function Snapshot(): Db
      reads this
    {
      Db(users, listings, bookings, verifications, studentVerifications, messages,
         nextUserId, nextListingId, nextBookingId, nextVerificationId, nextStudentVerificationId)
    }

    ghost predicate Valid()
      reads this
    {
      WellFormed(Snapshot())
    }

    constructor (initial: Db)
      requires WellFormed(initial)
      ensures Valid() && Snapshot() == initial
    {
      users := initial.users;
      listings := initial.listings;
      bookings := initial.bookings;
      verifications := initial.verifications;
      studentVerifications := initial.studentVerifications;
      messages := initial.messages;
      nextUserId := initial.nextUserId;
      nextListingId := initial.nextListingId;
      nextBookingId := initial.nextBookingId;
      nextVerificationId := initial.nextVerificationId;
      nextStudentVerificationId := initial.nextStudentVerificationId;
    }

    // The single-row SQL statements the handlers issue. Each keeps the store
    // well formed and changes nothing but its own table (and counter).

    /** `INSERT INTO User`: the row goes under the next auto-increment id. */
    method InsertUser(u: User) returns (id: int)
      requires Valid()
      modifies this
      ensures id == old(nextUserId)
      ensures Snapshot() == old(Snapshot()).(users := old(users)[id := u], nextUserId := id + 1)
      ensures Valid()
    {
      id := nextUserId;
      InsertAtCounter(users, id, u);
      users := users[id := u];
      nextUserId := id + 1;
    }

    /** `INSERT INTO Listing`. */
    method InsertListing(l: Listing) returns (id: int)
      requires Valid()
      modifies this
      ensures id == old(nextListingId)
      ensures Snapshot() == old(Snapshot()).(listings := old(listings)[id := l], nextListingId := id + 1)
      ensures Valid()
    {
      id := nextListingId;
      InsertAtCounter(listings, id, l);
      listings := listings[id := l];
      nextListingId := id + 1;
    }

    /** `INSERT INTO Booking`. */
    method InsertBooking(b: Booking) returns (id: int)
      requires Valid()
      modifies this
      ensures id == old(nextBookingId)
      ensures Snapshot() == old(Snapshot()).(bookings := old(bookings)[id := b], nextBookingId := id + 1)
      ensures Valid()
    {
      id := nextBookingId;
      InsertAtCounter(bookings, id, b);
      bookings := bookings[id := b];
      nextBookingId := id + 1;
    }

    /** `INSERT INTO Verification`. */
    method InsertVerification(v: Verification) returns (id: int)
      requires Valid()
      modifies this
      ensures id == old(nextVerificationId)
      ensures Snapshot() == old(Snapshot()).(verifications := old(verifications)[id := v],
                                             nextVerificationId := id + 1)
      ensures Valid()
    {
      id := nextVerificationId;
      InsertAtCounter(verifications, id, v);
      verifications := verifications[id := v];
      nextVerificationId := id + 1;
    }

    /** `INSERT INTO StudentVerification`. */
    method InsertStudentVerification(sv: StudentVerification) returns (id: int)
      requires Valid()
      modifies this
      ensures id == old(nextStudentVerificationId)
      ensures Snapshot() == old(Snapshot()).(studentVerifications := old(studentVerifications)[id := sv],
                                             nextStudentVerificationId := id + 1)
      ensures Valid()
    {
      id := nextStudentVerificationId;
      InsertAtCounter(studentVerifications, id, sv);
      studentVerifications := studentVerifications[id := sv];
      nextStudentVerificationId := id + 1;
    }

    /** `UPDATE Listing ... WHERE listing_id = id`. */
    method SetListing(id: int, l: Listing)
      requires Valid() && id in listings
      modifies this
      ensures Snapshot() == old(Snapshot()).(listings := old(listings)[id := l])
      ensures Valid()
    {
      listings := listings[id := l];
    }

    /** `DELETE FROM Listing WHERE listing_id = id`. */
    method RemoveListing(id: int)
      requires Valid()
      modifies this
      ensures Snapshot() == old(Snapshot()).(listings := old(listings) - {id})
      ensures Valid()
    {
      listings := listings - {id};
    }

    /** `UPDATE Booking ... WHERE booking_id = id`. */
    method SetBooking(id: int, b: Booking)
      requires Valid() && id in bookings
      modifies this
      ensures Snapshot() == old(Snapshot()).(bookings := old(bookings)[id := b])
      ensures Valid()
    {
      bookings := bookings[id := b];
    }

    /** `UPDATE Verification ... WHERE verification_id = id`. */
    method SetVerification(id: int, v: Verification)
      requires Valid() && id in verifications
      modifies this
      ensures Snapshot() == old(Snapshot()).(verifications := old(verifications)[id := v])
      ensures Valid()
    {
      verifications := verifications[id := v];
    }

    /** `UPDATE StudentVerification ... WHERE student_verification_id = id`. */
    method SetStudentVerification(id: int, sv: StudentVerification)
      requires Valid() && id in studentVerifications
      modifies this
      ensures Snapshot() == old(Snapshot()).(studentVerifications := old(studentVerifications)[id := sv])
      ensures Valid()
    {
      studentVerifications := studentVerifications[id := sv];
    }

    /** `UPDATE User SET is_verified = 1 WHERE user_id = subject`. */
    method MarkUserVerified(subject: int)
      requires Valid()
      modifies this
      ensures Snapshot() == old(Snapshot()).(users := MarkVerified(old(users), subject))
      ensures Valid()
    {
      users := MarkVerified(users, subject);
    }

    /** `POST /register`. */
    method Register(r: Accounts.Registration) returns (result: Result<int, Error>)
      requires Valid()
      modifies this
      ensures var s := Accounts.Register(old(Snapshot()), r);
        result == s.result && Snapshot() == s.db
      ensures Valid()
    {
      var refusal := Accounts.RegisterRefusal(Snapshot(), r);
      if refusal.Some? { return Err(refusal.value); }
      var role := Accounts.RegistrableRole(r.role);
      var id := InsertUser(User(SanitizeInput(r.username), r.email, role.value,
                                SanitizeInput(r.fullName), Or(r.phoneNumber, Null), false));
      result := Ok(id);
    }

    /** `POST /listings`. */
    method CreateListing(caller: Caller, input: Listings.ListingInput) returns (result: Result<int, Error>)
      requires Valid()
      modifies this
      ensures var s := Listings.CreateListing(old(Snapshot()), caller, input);
        result == s.result && Snapshot() == s.db
      ensures Valid()
    {
      var refusal := Listings.CreateListingRefusal(Snapshot(), caller, input);
      if refusal.Some? { return Err(refusal.value); }
      var id := InsertListing(Listings.NewListing(caller.userId, input));
      result := Ok(id);
    }

    /** `PUT /listings/:id`. */
    method UpdateListing(caller: Caller, id: int, e: Listings.ListingEdit) returns (result: Result<(), Error>)
      requires Valid()
      modifies this
      ensures var s := Listings.UpdateListing(old(Snapshot()), caller, id, e);
        result == s.result && Snapshot() == s.db
      ensures Valid()
    {
      if caller.role != Landlord { return Err(InsufficientPermissions); }
      if !(id in listings && listings[id].landlordId == caller.userId) { return Err(ListingNotFound); }
      var updates := BuildUpdates(e);
      if |updates| == 0 { return Err(NoFieldsToUpdate); }
      var row := RunUpdates(listings[id], updates);
      SetListing(id, row);
      result := Ok(());
    }

    /** `DELETE /listings/:id`. */
    method DeleteListing(caller: Caller, id: int) returns (result: Result<(), Error>)
      requires Valid()
      modifies this
      ensures var s := Listings.DeleteListing(old(Snapshot()), caller, id);
        result == s.result && Snapshot() == s.db
      ensures Valid()
    {
      var refusal := Listings.DeleteListingRefusal(Snapshot(), caller, id);
      if refusal.Some? { return Err(refusal.value); }
      RemoveListing(id);
      result := Ok(());
    }

    /** `POST /bookings`. */
    method CreateBooking(caller: Caller, listingId: int, bookingDate: Value) returns (result: Result<int, Error>)
      requires Valid()
      modifies this
      ensures var s := Bookings.CreateBooking(old(Snapshot()), caller, listingId, bookingDate);
        result == s.result && Snapshot() == s.db
      ensures Valid()
    {
      var refusal := Bookings.CreateBookingRefusal(Snapshot(), caller, listingId, bookingDate);
      if refusal.Some? { return Err(refusal.value); }
      var id := InsertBooking(Booking(caller.userId, listingId, bookingDate, BookingStatus.Pending));
      SetListing(listingId, listings[listingId].(status := Booked));
      result := Ok(id);
    }

    /** `PUT /bookings/:id/confirm`. */
    method ConfirmBooking(caller: Caller, id: int) returns (result: Result<(), Error>)
      requires Valid()
      modifies this
      ensures var s := Bookings.ConfirmBooking(old(Snapshot()), caller, id);
        result == s.result && Snapshot() == s.db
      ensures Valid()
    {
      var refusal := Bookings.ConfirmBookingRefusal(Snapshot(), caller, id);
      if refusal.Some? { return Err(refusal.value); }
      var b := bookings[id];
      SetBooking(id, b.(status := BookingStatus.Confirmed));
      result := Ok(());
    }

    /** `PUT /bookings/:id/cancel`. */
    method CancelBooking(caller: Caller, id: int) returns (result: Result<(), Error>)
      requires Valid()
      modifies this
      ensures var s := Bookings.CancelBooking(old(Snapshot()), caller, id);
        result == s.result && Snapshot() == s.db
      ensures Valid()
    {
      var refusal := Bookings.CancelBookingRefusal(Snapshot(), caller, id);
      if refusal.Some? { return Err(refusal.value); }
      var b := bookings[id];
      SetBooking(id, b.(status := BookingStatus.Cancelled));
      SetListing(b.listingId, listings[b.listingId].(status := Available));
      result := Ok(());
    }

    /** `POST /verifications`. */
    method SubmitVerification(caller: Caller, vtype: Value, url: Value) returns (result: Result<int, Error>)
      requires Valid()
      modifies this
      ensures var s := Verifications.SubmitVerification(old(Snapshot()), caller, vtype, url);
        result == s.result && Snapshot() == s.db
      ensures Valid()
    {
      var refusal := Verifications.SubmitRefusal(Snapshot(), caller, vtype, url);
      if refusal.Some? { return Err(refusal.value); }
      var t := Verifications.VerificationTypeOf(vtype);
      var id := InsertVerification(Verification(caller.userId, t.value, SanitizeInput(url),
                                                ReviewStatus.Pending, None));
      result := Ok(id);
    }

    /** `POST /verification/request`. */
    method RequestVerification(caller: Caller, vtype: Value, url: Value) returns (result: Result<int, Error>)
      requires Valid()
      modifies this
      ensures var s := Verifications.RequestVerification(old(Snapshot()), caller, vtype, url);
        result == s.result && Snapshot() == s.db
      ensures Valid()
    {
      var refusal := Verifications.RequestRefusal(Snapshot(), caller, vtype, url);
      if refusal.Some? { return Err(refusal.value); }
      var t := Verifications.VerificationTypeOf(vtype);
      var id := InsertVerification(Verification(caller.userId, t.value, url, ReviewStatus.Pending, None));
      result := Ok(id);
    }

    /** `PUT /verification/:id/review`. */
    method ReviewVerification(caller: Caller, id: int, status: Value) returns (result: Result<(), Error>)
      requires Valid()
      modifies this
      ensures var s := Verifications.ReviewVerification(old(Snapshot()), caller, id, status);
        result == s.result && Snapshot() == s.db
      ensures Valid()
    {
      var refusal := Verifications.ReviewRefusal(Snapshot(), caller, id, status);
      if refusal.Some? { return Err(refusal.value); }
      var d := Decision(status);
      var v := verifications[id];
      SetVerification(id, v.(status := d.value, verifiedBy := Some(caller.userId)));
      if d.value == Approved {
        MarkUserVerified(v.userId);
      }
      result := Ok(());
    }

    /** `POST /student-verification/request`. */
    method RequestStudentVerification(caller: Caller, landlordId: int, url: Value, docType: Value)
      returns (result: Result<int, Error>)
      requires Valid()
      modifies this
      ensures var s := StudentChecks.RequestStudentVerification(old(Snapshot()), caller, landlordId, url, docType);
        result == s.result && Snapshot() == s.db
      ensures Valid()
    {
      var refusal := StudentChecks.RequestRefusal(Snapshot(), caller, landlordId, url);
      if refusal.Some? { return Err(refusal.value); }
      var id := InsertStudentVerification(StudentChecks.NewRequest(caller.userId, landlordId, url, docType));
      result := Ok(id);
    }

    /** `PUT /student-verification/:id/review`. */
    method ReviewStudentVerification(caller: Caller, id: int, status: Value, notes: Value)
      returns (result: Result<(), Error>)
      requires Valid()
      modifies this
      ensures var s := StudentChecks.ReviewStudentVerification(old(Snapshot()), caller, id, status, notes);
        result == s.result && Snapshot() == s.db
      ensures Valid()
    {
      var refusal := StudentChecks.ReviewRefusal(Snapshot(), caller, id, status);
      if refusal.Some? { return Err(refusal.value); }
      var d := Decision(status);
      var sv := studentVerifications[id];
      SetStudentVerification(id, sv.(status := d.value, notes := SanitizeInput(Or(notes, Str("")))));
      if d.value == Approved {
        MarkUserVerified(sv.studentId);
      }
      result := Ok(());
    }

    /** `GET /messages/conversation/:otherUserId`: read the conversation, then mark it read. */
    method FetchConversation(caller: Caller, other: int) returns (result: Result<map<int, Message>, Error>)
      requires Valid()
      modifies this
      ensures var s := Messaging.FetchConversation(old(Snapshot()), caller, other);
        result == s.result && Snapshot() == s.db
      ensures Valid()
    {
      var conversation := map k | k in messages && Messaging.Between(messages[k], caller.userId, other)
                                  && messages[k].senderId in users :: messages[k];
      messages := Messaging.MarkRead(messages, caller.userId, other);
      result := Ok(conversation);
    }
  }
}
