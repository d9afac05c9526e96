/**
 * The relational store the handlers of server.js read and write: six tables,
 * each a map from its auto-increment primary key to the row, and one counter
 * per table that inserts draw from (standing in for `insertId`).
 */
module Tables {
  import opened Wrappers
  import opened Json

  datatype Role = Student | Landlord | Admin

  /** The authenticated caller, as carried by a verified bearer token. */
  datatype Caller = Caller(userId: int, role: Role)

  /** A `User` row; the password hash is not part of this model. */
  datatype User = User(username: Value, email: Value, role: Role, fullName: Value,
                       phoneNumber: Value, isVerified: bool)

  /** A `Listing` row; `status` holds whatever value the owner last wrote to it. */
  datatype Listing = Listing(landlordId: int, title: Value, description: Value, location: Value,
                             price: real, amenities: Value, proximityToCampus: Value,
                             availableFrom: Value, status: Value, isVerified: bool)

  const Available := Str("available")
  const Booked := Str("booked")

  datatype BookingStatus = Pending | Confirmed | Cancelled

  datatype Booking = Booking(studentId: int, listingId: int, bookingDate: Value, status: BookingStatus)

  datatype VerificationType = NationalId | TitleDeed | UtilityBill | OtherDocument

  /** The life cycle shared by `Verification` and `StudentVerification` rows. */
  datatype ReviewStatus = Pending | Approved | Rejected

  /** A `Verification` row: a document a landlord submits for an admin to review. */
  datatype Verification = Verification(userId: int, verificationType: VerificationType,
                                       documentUrl: Value, status: ReviewStatus,
                                       verifiedBy: Option<int>)

  /** A `StudentVerification` row: a document a student submits for one landlord to review. */
  datatype StudentVerification = StudentVerification(studentId: int, landlordId: int,
                                                     documentUrl: Value, documentType: Value,
                                                     status: ReviewStatus, notes: Value)

  datatype Message = Message(senderId: int, receiverId: int, listingId: Option<int>,
                             content: Value, isRead: bool)

  datatype Db = Db(
    users: map<int, User>,
    listings: map<int, Listing>,
    bookings: map<int, Booking>,
    verifications: map<int, Verification>,
    studentVerifications: map<int, StudentVerification>,
    messages: map<int, Message>,
    nextUserId: int,
    nextListingId: int,
    nextBookingId: int,
    nextVerificationId: int,
    nextStudentVerificationId: int)

  /** The reasons a handler answers with a 4xx status. */
  datatype Error =
    | InsufficientPermissions   // requireRole
    | MissingFields
    | InvalidRole
    | UserExists
    | NotVerified
    | InvalidListing
    | ListingNotFound           // absent, or owned by someone else
    | NoFieldsToUpdate
    | ListingUnavailable
    | DuplicateBooking
    | BookingNotFound
    | NotAuthorized
    | AlreadyConfirmed
    | AlreadyCancelled
    | InvalidVerificationType
    | DuplicateVerification
    | PendingVerificationExists
    | InvalidReviewStatus
    | VerificationNotFound
    | AlreadyReviewed
    | LandlordNotFound
    | PendingRequestExists

  /** The HTTP status each error is answered with. */
  function StatusCode(e: Error): (code: int)
    ensures code == 403 <==> e in {InsufficientPermissions, NotVerified, NotAuthorized}
    ensures code == 404 <==> e in {ListingNotFound, BookingNotFound, VerificationNotFound, LandlordNotFound}
    ensures code in {400, 403, 404}
  {
    match e
    case InsufficientPermissions => 403
    case NotVerified => 403
    case NotAuthorized => 403
    case ListingNotFound => 404
    case BookingNotFound => 404
    case VerificationNotFound => 404
    case LandlordNotFound => 404
    case _ => 400
  }

  /** What a handler leaves behind: the new store and the response. */
  datatype Step<T> = Step(db: Db, result: Result<T, Error>)

  /** Every key was drawn from the table's counter, which starts at 1. */
  ghost predicate KeysBelow<V>(m: map<int, V>, next: int) {
    1 <= next && forall k :: k in m ==> 1 <= k < next
  }

  ghost predicate WellFormed(db: Db) {
    && KeysBelow(db.users, db.nextUserId)
    && KeysBelow(db.listings, db.nextListingId)
    && KeysBelow(db.bookings, db.nextBookingId)
    && KeysBelow(db.verifications, db.nextVerificationId)
    && KeysBelow(db.studentVerifications, db.nextStudentVerificationId)
  }

  /** `m'` is `m` with one row added under the fresh key `id`. */
  ghost predicate AddsOne<V>(m: map<int, V>, m': map<int, V>, id: int) {
    && id !in m
    && m'.Keys == m.Keys + {id}
    && forall k :: k in m ==> m'[k] == m[k]
  }

  /** Inserting at the counter adds one row and keeps every key below the advanced counter. */
  lemma InsertAtCounter<V>(m: map<int, V>, next: int, v: V)
    ensures KeysBelow(m, next) ==> KeysBelow(m[next := v], next + 1) && AddsOne(m, m[next := v], next)
  {
  }

  /** `m'` has the same keys as `m` and differs from it at most in the row `id`. */
  ghost predicate ChangesOnly<V>(m: map<int, V>, m': map<int, V>, id: int) {
    && m'.Keys == m.Keys
    && forall k :: k in m && k != id ==> m'[k] == m[k]
  }

  /** No user's `is_verified` flag goes from true back to false, and no user disappears. */
  ghost predicate VerifiedKept(users: map<int, User>, users': map<int, User>) {
    forall k :: k in users ==> k in users' && (users[k].isVerified ==> users'[k].isVerified)
  }

  /** `UPDATE User SET is_verified = 1 WHERE user_id = subject`: an absent subject matches no row. */
  function MarkVerified(users: map<int, User>, subject: int): (users': map<int, User>)
    ensures users'.Keys == users.Keys
    ensures subject in users ==> users'[subject] == users[subject].(isVerified := true)
    ensures forall k :: k in users && k != subject ==> users'[k] == users[k]
    ensures VerifiedKept(users, users')
  {
    if subject in users then users[subject := users[subject].(isVerified := true)] else users
  }

  /** `approved` and `rejected` are the only outcomes a reviewer may choose. */
  function Decision(v: Value): (d: Option<ReviewStatus>)
    ensures d.Some? ==> d.value != ReviewStatus.Pending
    ensures d == Some(Approved) <==> v == Str("approved")
    ensures d == Some(Rejected) <==> v == Str("rejected")
  {
    if v == Str("approved") then Some(Approved)
    else if v == Str("rejected") then Some(Rejected)
    else None
  }

  /** The `User.email` column holds no value twice. */
  ghost predicate UniqueEmails(users: map<int, User>) {
    forall i, j :: i in users && j in users && users[i].email == users[j].email ==> i == j
  }

  /** The `User.username` column holds no value twice. */
  ghost predicate UniqueUsernames(users: map<int, User>) {
    forall i, j :: i in users && j in users && users[i].username == users[j].username ==> i == j
  }
}
