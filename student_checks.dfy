/**
 * Student verification by a landlord (server.js): a student's
 * `POST /student-verification/request` to one landlord, and that landlord's
 * `PUT /student-verification/:id/review`.
 */
module StudentChecks {
  import opened Wrappers
  import opened Json
  import opened Sanitize
  import opened Tables

  predicate IsLandlord(db: Db, id: int) {
    id in db.users && db.users[id].role == Landlord
  }

  predicate HasPendingWith(svs: map<int, StudentVerification>, student: int, landlord: int) {
    exists k :: k in svs && svs[k].studentId == student && svs[k].landlordId == landlord
                && svs[k].status == ReviewStatus.Pending
  }

  /** At most one pending request per (student, landlord). */
  ghost predicate OnePendingPerPair(svs: map<int, StudentVerification>) {
    forall i, j ::
      (&& i in svs && j in svs && svs[i].status == ReviewStatus.Pending && svs[j].status == ReviewStatus.Pending
       && svs[i].studentId == svs[j].studentId && svs[i].landlordId == svs[j].landlordId) ==> i == j
  }

  /** The request exists and is addressed to this landlord (other landlords see 404). */
  predicate AddressedTo(db: Db, id: int, landlord: int) {
    id in db.studentVerifications && db.studentVerifications[id].landlordId == landlord
  }

  /** The row a successful request inserts. */
  function NewRequest(student: int, landlordId: int, url: Value, docType: Value): StudentVerification {
    StudentVerification(student, landlordId, SanitizeInput(url), SanitizeInput(Or(docType, Str("student_id"))),
                        ReviewStatus.Pending, Null)
  }

  /** The error `POST /student-verification/request` answers with, if any, checked in the handler's order. */
  function RequestRefusal(db: Db, caller: Caller, landlordId: int, url: Value): (e: Option<Error>)
    ensures e == Some(InsufficientPermissions) <==> caller.role != Student
    ensures e == Some(MissingFields) <==> caller.role == Student && (landlordId == 0 || !Truthy(url))
    ensures e == Some(LandlordNotFound) <==>
      caller.role == Student && landlordId != 0 && Truthy(url) && !IsLandlord(db, landlordId)
    ensures e == Some(PendingRequestExists) <==>
      && caller.role == Student && landlordId != 0 && Truthy(url) && IsLandlord(db, landlordId)
      && HasPendingWith(db.studentVerifications, caller.userId, landlordId)
    ensures e.None? <==>
      && caller.role == Student && landlordId != 0 && Truthy(url) && IsLandlord(db, landlordId)
      && !HasPendingWith(db.studentVerifications, caller.userId, landlordId)
  {
    if caller.role != Student then Some(InsufficientPermissions)
    else if landlordId == 0 || !Truthy(url) then Some(MissingFields)
    else if !IsLandlord(db, landlordId) then Some(LandlordNotFound)
    else if HasPendingWith(db.studentVerifications, caller.userId, landlordId) then Some(PendingRequestExists)
    else None
  }

  /** `POST /student-verification/request`: a student asks one landlord to vouch for them. */
  function RequestStudentVerification(db: Db, caller: Caller, landlordId: int, url: Value, docType: Value)
    : (s: Step<int>)
    ensures var refusal := RequestRefusal(db, caller, landlordId, url);
      && (s.result.Err? <==> refusal.Some?)
      && (s.result.Err? ==> s.result.error == refusal.value && s.db == db)
    ensures s.result.Ok? ==>
      && s.db == db.(studentVerifications := s.db.studentVerifications,
                     nextStudentVerificationId := s.db.nextStudentVerificationId)
      && s.result.value in s.db.studentVerifications
      && var sv := s.db.studentVerifications[s.result.value];
      && sv.studentId == caller.userId && sv.landlordId == landlordId && sv.status == ReviewStatus.Pending
      && sv.documentUrl == SanitizeInput(url) && sv.documentType == SanitizeInput(Or(docType, Str("student_id")))
    ensures WellFormed(db) && s.result.Ok? ==>
      AddsOne(db.studentVerifications, s.db.studentVerifications, s.result.value)
    ensures WellFormed(db) ==> WellFormed(s.db)
    ensures WellFormed(db) && OnePendingPerPair(db.studentVerifications) ==>
      OnePendingPerPair(s.db.studentVerifications)
  {
    var refusal := RequestRefusal(db, caller, landlordId, url);
    if refusal.Some? then Step(db, Err(refusal.value))
    else
      var id := db.nextStudentVerificationId;
      var sv := NewRequest(caller.userId, landlordId, url, docType);
      InsertKeepsOnePending(db, id, sv);
      InsertAtCounter(db.studentVerifications, id, sv);
      Step(db.(studentVerifications := db.studentVerifications[id := sv],
               nextStudentVerificationId := id + 1), Ok(id))
  }

  /** Inserting a pending request for a pair that has none keeps one pending request per pair. */
  lemma InsertKeepsOnePending(db: Db, id: int, sv: StudentVerification)
    requires !HasPendingWith(db.studentVerifications, sv.studentId, sv.landlordId)
    ensures WellFormed(db) && id == db.nextStudentVerificationId && OnePendingPerPair(db.studentVerifications)
            ==> OnePendingPerPair(db.studentVerifications[id := sv])
  {
  }

  /**
   * The error `PUT /student-verification/:id/review` answers with, if any, checked
   * in the handler's order; a request addressed to another landlord reads as missing.
   */
  function ReviewRefusal(db: Db, caller: Caller, id: int, status: Value): (e: Option<Error>)
    ensures e == Some(InsufficientPermissions) <==> caller.role != Landlord
    ensures e == Some(InvalidReviewStatus) <==> caller.role == Landlord && Decision(status).None?
    ensures e == Some(VerificationNotFound) <==>
      caller.role == Landlord && Decision(status).Some? && !AddressedTo(db, id, caller.userId)
    ensures e == Some(AlreadyReviewed) <==>
      && caller.role == Landlord && Decision(status).Some? && AddressedTo(db, id, caller.userId)
      && db.studentVerifications[id].status != ReviewStatus.Pending
    ensures e.None? <==>
      && caller.role == Landlord && Decision(status).Some? && AddressedTo(db, id, caller.userId)
      && db.studentVerifications[id].status == ReviewStatus.Pending
  {
    if caller.role != Landlord then Some(InsufficientPermissions)
    else if Decision(status).None? then Some(InvalidReviewStatus)
    else if !AddressedTo(db, id, caller.userId) then Some(VerificationNotFound)
    else if db.studentVerifications[id].status != ReviewStatus.Pending then Some(AlreadyReviewed)
    else None
  }

  /** `PUT /student-verification/:id/review`: approving marks the student verified. */
  function ReviewStudentVerification(db: Db, caller: Caller, id: int, status: Value, notes: Value)
    : (s: Step<()>)
    ensures var refusal := ReviewRefusal(db, caller, id, status);
      && (s.result.Err? <==> refusal.Some?)
      && (s.result.Err? ==> s.result.error == refusal.value && s.db == db)
    ensures s.result.Ok? ==>
      var sv := db.studentVerifications[id];
      && s.db == db.(studentVerifications := s.db.studentVerifications, users := s.db.users)
      && ChangesOnly(db.studentVerifications, s.db.studentVerifications, id)
      && s.db.studentVerifications[id]
         == sv.(status := Decision(status).value, notes := SanitizeInput(Or(notes, Str(""))))
      && (Decision(status) == Some(Approved) ==>
            && s.db.users == MarkVerified(db.users, sv.studentId)
            && s.db.users.Keys == db.users.Keys
            && (sv.studentId in db.users ==> s.db.users[sv.studentId].isVerified)
            && forall k :: k in db.users && k != sv.studentId ==> s.db.users[k] == db.users[k])
      && (Decision(status) == Some(Rejected) ==> s.db.users == db.users)
    ensures VerifiedKept(db.users, s.db.users)
    ensures WellFormed(db) ==> WellFormed(s.db)
    ensures OnePendingPerPair(db.studentVerifications) ==> OnePendingPerPair(s.db.studentVerifications)
  {
    var refusal := ReviewRefusal(db, caller, id, status);
    if refusal.Some? then Step(db, Err(refusal.value))
    else
      var sv := db.studentVerifications[id];
      var d := Decision(status).value;
      var users := if d == Approved then MarkVerified(db.users, sv.studentId) else db.users;
      Step(db.(studentVerifications := db.studentVerifications[id := sv.(status := d,
                                                              notes := SanitizeInput(Or(notes, Str(""))))],
               users := users), Ok(()))
  }
}
