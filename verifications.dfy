/**
 * Landlord verification (server.js): `POST /verifications`, the older
 * `POST /verification/request`, and the admin's `PUT /verification/:id/review`.
 */
module Verifications {
  import opened Wrappers
  import opened Json
  import opened Sanitize
  import opened Tables

  function VerificationTypeOf(v: Value): (t: Option<VerificationType>)
    ensures t.Some? <==> v in {Str("national_id"), Str("title_deed"), Str("utility_bill"), Str("other")}
    ensures t == Some(NationalId) <==> v == Str("national_id")
    ensures t == Some(TitleDeed) <==> v == Str("title_deed")
    ensures t == Some(UtilityBill) <==> v == Str("utility_bill")
    ensures t == Some(OtherDocument) <==> v == Str("other")
  {
    if v == Str("national_id") then Some(NationalId)
    else if v == Str("title_deed") then Some(TitleDeed)
    else if v == Str("utility_bill") then Some(UtilityBill)
    else if v == Str("other") then Some(OtherDocument)
    else None
  }

  /** A record that still counts against a new submission of its type: pending or approved. */
  predicate Live(v: Verification) {
    v.status == ReviewStatus.Pending || v.status == Approved
  }

  predicate HasLive(vs: map<int, Verification>, user: int, t: VerificationType) {
    exists k :: k in vs && vs[k].userId == user && vs[k].verificationType == t && Live(vs[k])
  }

  predicate HasPending(vs: map<int, Verification>, user: int) {
    exists k :: k in vs && vs[k].userId == user && vs[k].status == ReviewStatus.Pending
  }

  /** At most one pending-or-approved record per (user, verification type). */
  ghost predicate OneLivePerType(vs: map<int, Verification>) {
    forall i, j ::
      (&& i in vs && j in vs && Live(vs[i]) && Live(vs[j])
       && vs[i].userId == vs[j].userId && vs[i].verificationType == vs[j].verificationType) ==> i == j
  }

  /** At most one pending record per user, whatever its type. */
  ghost predicate OnePendingPerUser(vs: map<int, Verification>) {
    forall i, j ::
      (&& i in vs && j in vs && vs[i].status == ReviewStatus.Pending && vs[j].status == ReviewStatus.Pending
       && vs[i].userId == vs[j].userId) ==> i == j
  }

  predicate Submittable(caller: Caller, vtype: Value, url: Value) {
    caller.role == Landlord && Truthy(vtype) && Truthy(url) && VerificationTypeOf(vtype).Some?
  }

  /** The error `POST /verifications` answers with, if any, checked in the handler's order. */
  function SubmitRefusal(db: Db, caller: Caller, vtype: Value, url: Value): (e: Option<Error>)
    ensures e == Some(InsufficientPermissions) <==> caller.role != Landlord
    ensures e == Some(MissingFields) <==> caller.role == Landlord && !(Truthy(vtype) && Truthy(url))
    ensures e == Some(InvalidVerificationType) <==>
      caller.role == Landlord && Truthy(vtype) && Truthy(url) && VerificationTypeOf(vtype).None?
    ensures e == Some(DuplicateVerification) <==>
      Submittable(caller, vtype, url) && HasLive(db.verifications, caller.userId, VerificationTypeOf(vtype).value)
    ensures e.None? <==>
      Submittable(caller, vtype, url) && !HasLive(db.verifications, caller.userId, VerificationTypeOf(vtype).value)
  {
    if caller.role != Landlord then Some(InsufficientPermissions)
    else if !(Truthy(vtype) && Truthy(url)) then Some(MissingFields)
    else if VerificationTypeOf(vtype).None? then Some(InvalidVerificationType)
    else if HasLive(db.verifications, caller.userId, VerificationTypeOf(vtype).value) then Some(DuplicateVerification)
    else None
  }

  /** `POST /verifications`: one pending or approved document per type. */
  function SubmitVerification(db: Db, caller: Caller, vtype: Value, url: Value): (s: Step<int>)
    ensures var refusal := SubmitRefusal(db, caller, vtype, url);
      && (s.result.Err? <==> refusal.Some?)
      && (s.result.Err? ==> s.result.error == refusal.value && s.db == db)
    ensures s.result.Ok? ==>
      && s.db == db.(verifications := s.db.verifications, nextVerificationId := s.db.nextVerificationId)
      && s.result.value in s.db.verifications
      && s.db.verifications[s.result.value]
         == Verification(caller.userId, VerificationTypeOf(vtype).value, SanitizeInput(url), ReviewStatus.Pending, None)
    ensures WellFormed(db) && s.result.Ok? ==> AddsOne(db.verifications, s.db.verifications, s.result.value)
    ensures WellFormed(db) ==> WellFormed(s.db)
    ensures WellFormed(db) && OneLivePerType(db.verifications) ==> OneLivePerType(s.db.verifications)
  {
    var refusal := SubmitRefusal(db, caller, vtype, url);
    if refusal.Some? then Step(db, Err(refusal.value))
    else
      var t := VerificationTypeOf(vtype).value;
      var id := db.nextVerificationId;
      var v := Verification(caller.userId, t, SanitizeInput(url), ReviewStatus.Pending, None);
      InsertAtCounter(db.verifications, id, v);
      Step(db.(verifications := db.verifications[id := v], nextVerificationId := id + 1), Ok(id))
  }

  /**
   * The error `POST /verification/request` answers with, if any, checked in the
   * handler's order: it is refused while any verification of the caller is
   * pending, whatever its type.
   */
  function RequestRefusal(db: Db, caller: Caller, vtype: Value, url: Value): (e: Option<Error>)
    ensures e == Some(InsufficientPermissions) <==> caller.role != Landlord
    ensures e == Some(MissingFields) <==> caller.role == Landlord && !(Truthy(vtype) && Truthy(url))
    ensures e == Some(InvalidVerificationType) <==>
      caller.role == Landlord && Truthy(vtype) && Truthy(url) && VerificationTypeOf(vtype).None?
    ensures e == Some(PendingVerificationExists) <==>
      Submittable(caller, vtype, url) && HasPending(db.verifications, caller.userId)
    ensures e.None? <==> Submittable(caller, vtype, url) && !HasPending(db.verifications, caller.userId)
  {
    if caller.role != Landlord then Some(InsufficientPermissions)
    else if !(Truthy(vtype) && Truthy(url)) then Some(MissingFields)
    else if VerificationTypeOf(vtype).None? then Some(InvalidVerificationType)
    else if HasPending(db.verifications, caller.userId) then Some(PendingVerificationExists)
    else None
  }

  /** `POST /verification/request`: the document URL is stored without sanitizing. */
  function RequestVerification(db: Db, caller: Caller, vtype: Value, url: Value): (s: Step<int>)
    ensures var refusal := RequestRefusal(db, caller, vtype, url);
      && (s.result.Err? <==> refusal.Some?)
      && (s.result.Err? ==> s.result.error == refusal.value && s.db == db)
    ensures s.result.Ok? ==>
      && s.db == db.(verifications := s.db.verifications, nextVerificationId := s.db.nextVerificationId)
      && s.result.value in s.db.verifications
      && s.db.verifications[s.result.value]
         == Verification(caller.userId, VerificationTypeOf(vtype).value, url, ReviewStatus.Pending, None)
    ensures WellFormed(db) && s.result.Ok? ==> AddsOne(db.verifications, s.db.verifications, s.result.value)
    ensures WellFormed(db) ==> WellFormed(s.db)
    ensures WellFormed(db) && OnePendingPerUser(db.verifications) ==> OnePendingPerUser(s.db.verifications)
  {
    var refusal := RequestRefusal(db, caller, vtype, url);
    if refusal.Some? then Step(db, Err(refusal.value))
    else
      var id := db.nextVerificationId;
      var v := Verification(caller.userId, VerificationTypeOf(vtype).value, url, ReviewStatus.Pending, None);
      InsertAtCounter(db.verifications, id, v);
      Step(db.(verifications := db.verifications[id := v], nextVerificationId := id + 1), Ok(id))
  }

  /** The error `PUT /verification/:id/review` answers with, if any, checked in the handler's order. */
  function ReviewRefusal(db: Db, caller: Caller, id: int, status: Value): (e: Option<Error>)
    ensures e == Some(InsufficientPermissions) <==> caller.role != Admin
    ensures e == Some(InvalidReviewStatus) <==> caller.role == Admin && Decision(status).None?
    ensures e == Some(VerificationNotFound) <==>
      caller.role == Admin && Decision(status).Some? && id !in db.verifications
    ensures e == Some(AlreadyReviewed) <==>
      && caller.role == Admin && Decision(status).Some? && id in db.verifications
      && db.verifications[id].status != ReviewStatus.Pending
    ensures e.None? <==>
      && caller.role == Admin && Decision(status).Some? && id in db.verifications
      && db.verifications[id].status == ReviewStatus.Pending
  {
    if caller.role != Admin then Some(InsufficientPermissions)
    else if Decision(status).None? then Some(InvalidReviewStatus)
    else if id !in db.verifications then Some(VerificationNotFound)
    else if db.verifications[id].status != ReviewStatus.Pending then Some(AlreadyReviewed)
    else None
  }

  /** `PUT /verification/:id/review`: approving marks the landlord verified; rejecting does not. */
  function ReviewVerification(db: Db, caller: Caller, id: int, status: Value): (s: Step<()>)
    ensures var refusal := ReviewRefusal(db, caller, id, status);
      && (s.result.Err? <==> refusal.Some?)
      && (s.result.Err? ==> s.result.error == refusal.value && s.db == db)
    ensures s.result.Ok? ==>
      var v := db.verifications[id];
      && s.db == db.(verifications := s.db.verifications, users := s.db.users)
      && ChangesOnly(db.verifications, s.db.verifications, id)
      && s.db.verifications[id] == v.(status := Decision(status).value, verifiedBy := Some(caller.userId))
      && (Decision(status) == Some(Approved) ==>
            && s.db.users == MarkVerified(db.users, v.userId)
            && s.db.users.Keys == db.users.Keys
            && (v.userId in db.users ==> s.db.users[v.userId].isVerified)
            && forall k :: k in db.users && k != v.userId ==> s.db.users[k] == db.users[k])
      && (Decision(status) == Some(Rejected) ==> s.db.users == db.users)
    ensures VerifiedKept(db.users, s.db.users)
    ensures WellFormed(db) ==> WellFormed(s.db)
    ensures OneLivePerType(db.verifications) ==> OneLivePerType(s.db.verifications)
    ensures OnePendingPerUser(db.verifications) ==> OnePendingPerUser(s.db.verifications)
  {
    var refusal := ReviewRefusal(db, caller, id, status);
    if refusal.Some? then Step(db, Err(refusal.value))
    else
      var v := db.verifications[id];
      var d := Decision(status).value;
      var users := if d == Approved then MarkVerified(db.users, v.userId) else db.users;
      Step(db.(verifications := db.verifications[id := v.(status := d, verifiedBy := Some(caller.userId))],
               users := users), Ok(()))
  }
}
