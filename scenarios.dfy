/**
 * Properties of server.js that take more than one request to see: how the
 * handlers' effects combine, and the places where the checks as written let
 * a table reach a state the other handlers try to prevent.
 */
module Scenarios {
  import opened Wrappers
  import opened Json
  import opened Sanitize
  import opened Tables
  import opened Accounts
  import opened Listings
  import opened Bookings
  import opened Verifications
  import StudentChecks
  import opened Messaging

  /**
   * A landlord cannot list before an admin has approved one of their documents,
   * and once the admin approves a freshly submitted one, the same listing goes through.
   */
  lemma ApprovalUnlocksListing(db: Db, landlord: Caller, admin: Caller, vtype: Value, url: Value,
                               input: ListingInput)
    requires landlord.role == Landlord && admin.role == Admin
    requires landlord.userId in db.users && !db.users[landlord.userId].isVerified
    requires Truthy(input.title) && Truthy(input.location) && PositivePrice(input.price)
    requires Submittable(landlord, vtype, url)
    requires !HasLive(db.verifications, landlord.userId, VerificationTypeOf(vtype).value)
    ensures Listings.CreateListing(db, landlord, input).result == Err(NotVerified)
    ensures var submitted := SubmitVerification(db, landlord, vtype, url);
      && submitted.result.Ok?
      && var reviewed := ReviewVerification(submitted.db, admin, submitted.result.value, Str("approved"));
      && reviewed.result == Ok(())
      && Listings.CreateListing(reviewed.db, landlord, input).result.Ok?
  {
    var submitted := SubmitVerification(db, landlord, vtype, url);
    var id := submitted.result.value;
    assert submitted.db.users == db.users;
    assert submitted.db.verifications[id].status == ReviewStatus.Pending;
    var reviewed := ReviewVerification(submitted.db, admin, id, Str("approved"));
    assert reviewed.db.users[landlord.userId].isVerified;
  }

  /** Once a student has booked a listing, it is no longer available to anybody. */
  lemma BookedListingIsTaken(db: Db, first: Caller, second: Caller, listingId: int, d1: Value, d2: Value)
    requires CreateBooking(db, first, listingId, d1).result.Ok?
    requires second.role == Student && Truthy(d2)
    ensures CreateBooking(CreateBooking(db, first, listingId, d1).db, second, listingId, d2).result
            == Err(ListingUnavailable)
  {
    var booked := CreateBooking(db, first, listingId, d1);
    assert booked.db.listings[listingId].status == Booked;
  }

  /** A student who cancels their booking can book the same listing again. */
  lemma CancelThenRebook(db: Db, student: Caller, listingId: int, date: Value)
    requires WellFormed(db)
    requires CreateBooking(db, student, listingId, date).result.Ok?
    ensures var booked := CreateBooking(db, student, listingId, date);
      var cancelled := CancelBooking(booked.db, student, booked.result.value);
      && cancelled.result == Ok(())
      && CreateBooking(cancelled.db, student, listingId, date).result.Ok?
  {
    var booked := CreateBooking(db, student, listingId, date);
    var id := booked.result.value;
    var cancelled := CancelBooking(booked.db, student, id);
    assert Found(booked.db, id);
    assert cancelled.db.listings[listingId] == db.listings[listingId].(status := Available);
    NoActiveBookingAfterCancel(db, booked.db, cancelled.db, student.userId, listingId, id);
  }

  /** The only booking of the pair that was added is now cancelled, so the pair has none active. */
  lemma NoActiveBookingAfterCancel(db: Db, booked: Db, cancelled: Db, student: int, listingId: int, id: int)
    requires !HasActiveBooking(db.bookings, student, listingId)
    requires AddsOne(db.bookings, booked.bookings, id)
    requires ChangesOnly(booked.bookings, cancelled.bookings, id)
    requires cancelled.bookings[id].status == BookingStatus.Cancelled
    ensures !HasActiveBooking(cancelled.bookings, student, listingId)
  {
    forall k | k in cancelled.bookings && k != id
      ensures !(cancelled.bookings[k].studentId == student && cancelled.bookings[k].listingId == listingId
                && Active(cancelled.bookings[k]))
    {
      assert cancelled.bookings[k] == db.bookings[k];
    }
  }

  /**
   * Book, cancel, book again, then confirm the first (cancelled) booking: confirm
   * accepts it, and the student ends up with two live bookings of one listing.
   */
  lemma ConfirmRevivesCancelled(db: Db, student: Caller, landlord: Caller, listingId: int, date: Value)
    requires WellFormed(db)
    requires CreateBooking(db, student, listingId, date).result.Ok?
    requires landlord.role == Landlord && db.listings[listingId].landlordId == landlord.userId
    ensures var booked := CreateBooking(db, student, listingId, date);
      var first := booked.result.value;
      var cancelled := CancelBooking(booked.db, student, first);
      var rebooked := CreateBooking(cancelled.db, student, listingId, date);
      var confirmed := ConfirmBooking(rebooked.db, landlord, first);
      && rebooked.result.Ok?
      && confirmed.result == Ok(())
      && !OneActivePerPair(confirmed.db.bookings)
  {
    CancelThenRebook(db, student, listingId, date);
    var booked := CreateBooking(db, student, listingId, date);
    var first := booked.result.value;
    var cancelled := CancelBooking(booked.db, student, first);
    var rebooked := CreateBooking(cancelled.db, student, listingId, date);
    var second := rebooked.result.value;
    assert first in cancelled.db.bookings && second !in cancelled.db.bookings;
    assert rebooked.db.bookings[first] == cancelled.db.bookings[first];
    var confirmed := ConfirmBooking(rebooked.db, landlord, first);
    TwoActive(confirmed.db.bookings, first, second);
  }

  /** Two live bookings of one student for one listing break the one-booking rule. */
  lemma TwoActive(bookings: map<int, Booking>, i: int, j: int)
    requires i in bookings && j in bookings && i != j
    requires Active(bookings[i]) && Active(bookings[j])
    requires bookings[i].studentId == bookings[j].studentId && bookings[i].listingId == bookings[j].listingId
    ensures !OneActivePerPair(bookings)
  {
  }

  /**
   * The older `POST /verification/request` only looks for pending records, so it
   * files a second live document of a type that is already approved.
   */
  lemma LegacyRequestDuplicatesApproved(db: Db, landlord: Caller, vtype: Value, url: Value, approved: int)
    requires WellFormed(db) && Submittable(landlord, vtype, url)
    requires !HasPending(db.verifications, landlord.userId)
    requires approved in db.verifications && db.verifications[approved].userId == landlord.userId
    requires db.verifications[approved].verificationType == VerificationTypeOf(vtype).value
    requires db.verifications[approved].status == Approved
    ensures var s := RequestVerification(db, landlord, vtype, url);
      s.result.Ok? && !OneLivePerType(s.db.verifications)
  {
    var s := RequestVerification(db, landlord, vtype, url);
    var id := s.result.value;
    assert id != approved;
    assert s.db.verifications[approved] == db.verifications[approved];
    assert Live(s.db.verifications[id]) && Live(s.db.verifications[approved]);
  }

  /**
   * `POST /verifications` only looks for records of the same type, so a landlord
   * can have two pending documents at once, which the older route refuses.
   */
  lemma SubmitAllowsTwoPending(db: Db, landlord: Caller, vtype: Value, url: Value, pending: int)
    requires WellFormed(db) && Submittable(landlord, vtype, url)
    requires !HasLive(db.verifications, landlord.userId, VerificationTypeOf(vtype).value)
    requires pending in db.verifications && db.verifications[pending].userId == landlord.userId
    requires db.verifications[pending].status == ReviewStatus.Pending
    ensures var s := SubmitVerification(db, landlord, vtype, url);
      && s.result.Ok?
      && !OnePendingPerUser(s.db.verifications)
      && RequestVerification(db, landlord, vtype, url).result == Err(PendingVerificationExists)
  {
    var s := SubmitVerification(db, landlord, vtype, url);
    var id := s.result.value;
    assert id != pending;
    assert s.db.verifications[pending] == db.verifications[pending];
    assert HasPending(db.verifications, landlord.userId);
  }

  /** A document an admin has decided on cannot be decided again. */
  lemma ReviewIsFinal(db: Db, admin: Caller, id: int, status: Value, again: Value)
    requires ReviewVerification(db, admin, id, status).result.Ok?
    requires Decision(again).Some?
    ensures ReviewVerification(ReviewVerification(db, admin, id, status).db, admin, id, again).result
            == Err(AlreadyReviewed)
  {
    var s := ReviewVerification(db, admin, id, status);
    assert s.db.verifications[id].status == Decision(status).value;
  }

  /** A student's request, once decided by its landlord, cannot be decided again. */
  lemma StudentReviewIsFinal(db: Db, landlord: Caller, id: int, status: Value, notes: Value, again: Value)
    requires StudentChecks.ReviewStudentVerification(db, landlord, id, status, notes).result.Ok?
    requires Decision(again).Some?
    ensures var s := StudentChecks.ReviewStudentVerification(db, landlord, id, status, notes);
      StudentChecks.ReviewStudentVerification(s.db, landlord, id, again, notes).result == Err(AlreadyReviewed)
  {
    var s := StudentChecks.ReviewStudentVerification(db, landlord, id, status, notes);
    assert s.db.studentVerifications[id].status == Decision(status).value;
    assert StudentChecks.AddressedTo(s.db, id, landlord.userId);
  }

  /**
   * Registration compares the username as given but stores it sanitized, so a
   * second account can end up under a username that is already stored.
   */
  lemma SanitizedUsernamesCollide(db: Db, r1: Registration, r2: Registration)
    requires WellFormed(db) && Register(db, r1).result.Ok?
    requires RequiredPresent(r2) && RegistrableRole(r2.role).Some?
    requires !Taken(db.users, r2.email, r2.username)
    requires r2.email != r1.email && r2.username != SanitizeInput(r1.username)
    requires SanitizeInput(r2.username) == SanitizeInput(r1.username)
    ensures var s1 := Register(db, r1);
      var s2 := Register(s1.db, r2);
      s2.result.Ok? && !UniqueUsernames(s2.db.users)
  {
    var s1 := Register(db, r1);
    var first := s1.result.value;
    StillFree(db.users, s1.db.users, first, r2.email, r2.username);
    var s2 := Register(s1.db, r2);
    var second := s2.result.value;
    assert second != first && first in s2.db.users;
    assert s2.db.users[first] == s1.db.users[first];
  }

  /** Adding one user who has neither the email nor the username keeps both free. */
  lemma StillFree(users: map<int, User>, users': map<int, User>, id: int, email: Value, username: Value)
    requires !Taken(users, email, username)
    requires AddsOne(users, users', id)
    requires users'[id].email != email && users'[id].username != username
    ensures !Taken(users', email, username)
  {
    forall k | k in users'
      ensures users'[k].email != email && users'[k].username != username
    {
      if k != id {
        assert users'[k] == users[k];
      }
    }
  }

  /** `"<bob>"` passes the duplicate check against a stored `"bob"` and is stored as `"bob"`. */
  lemma BracketedUsername()
    ensures SanitizeInput(Str("<bob>")) == Str("bob")
    ensures Str("<bob>") != SanitizeInput(Str("bob"))
  {
    BracketedSanitized();
    PlainSanitized();
  }

  lemma BracketedSanitized()
    ensures SanitizeInput(Str("<bob>")) == Str("bob")
  {
    BracketedTrim();
    BracketedStrip();
  }

  lemma PlainSanitized()
    ensures SanitizeInput(Str("bob")) == Str("bob")
  {
    PlainTrim();
    PlainStrip();
  }

  lemma BracketedTrim()
    ensures Trim("<bob>") == "<bob>"
  {
    assert !IsTrimmable('<');
    assert TrimStart("<bob>") == "<bob>";
    assert !IsTrimmable('>');
    assert TrimEnd("<bob>") == "<bob>";
  }

  lemma PlainTrim()
    ensures Trim("bob") == "bob"
  {
    assert !IsTrimmable('b');
    assert TrimStart("bob") == "bob";
    assert TrimEnd("bob") == "bob";
  }

  lemma PlainStrip()
    ensures StripAngles("bob") == "bob"
  {
    assert "b"[1..] == "";
    assert StripAngles("b") == "b";
    assert "ob"[1..] == "b";
    assert StripAngles("ob") == "ob";
    assert "bob"[1..] == "ob";
  }

  lemma BracketedStrip()
    ensures StripAngles("<bob>") == "bob"
  {
    assert ">"[1..] == "";
    assert StripAngles(">") == "";
    assert "b>"[1..] == ">";
    assert StripAngles("b>") == "b";
    assert "ob>"[1..] == "b>";
    assert StripAngles("ob>") == "ob";
    assert "bob>"[1..] == "ob>";
    assert StripAngles("bob>") == "bob";
    assert "<bob>"[1..] == "bob>";
  }

  /** Editing a listing never changes which listings the public queries show. */
  lemma EditKeepsPublicListings(db: Db, caller: Caller, id: int, e: ListingEdit)
    ensures PublicListings(UpdateListing(db, caller, id, e).db.listings).Keys == PublicListings(db.listings).Keys
  {
    var s := UpdateListing(db, caller, id, e);
    if s.result.Ok? {
      assert s.db.listings[id].isVerified == db.listings[id].isVerified;
    }
  }

  /**
   * A form that sends only the price `"0"` passes the handler's `if (price)`:
   * the owner's edit succeeds and the listing's price becomes 0.
   */
  lemma ZeroPriceStringIsAnEdit(db: Db, owner: Caller, id: int)
    requires owner.role == Landlord && Owns(db, owner, id)
    ensures var e := ListingEdit(Undefined, Undefined, Undefined, Str("0"), 0.0,
                                 Undefined, Undefined, Undefined, Undefined);
      var s := UpdateListing(db, owner, id, e);
      s.result == Ok(()) && s.db.listings[id].price == 0.0
  {
    var e := ListingEdit(Undefined, Undefined, Undefined, Str("0"), 0.0,
                         Undefined, Undefined, Undefined, Undefined);
    assert Truthy(e.price);
  }

  /** Opening a conversation a second time finds nothing left to mark read. */
  lemma FetchTwiceMarksOnce(db: Db, caller: Caller, other: int)
    ensures var once := FetchConversation(db, caller, other);
      FetchConversation(once.db, caller, other).db == once.db
  {
    MarkReadIdempotent(db.messages, caller.userId, other);
  }
}
