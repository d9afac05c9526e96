/** `POST /register` (server.js): the checks before a `User` row is inserted. */
module Accounts {
  import opened Wrappers
  import opened Json
  import opened Sanitize
  import opened Tables

  datatype Registration = Registration(username: Value, email: Value, password: Value,
                                       role: Value, fullName: Value, phoneNumber: Value)

  predicate RequiredPresent(r: Registration) {
    Truthy(r.username) && Truthy(r.email) && Truthy(r.password) && Truthy(r.role) && Truthy(r.fullName)
  }

  /** Only the two self-service roles may be chosen at registration. */
  function RegistrableRole(v: Value): (r: Option<Role>)
    ensures r.Some? ==> r.value != Admin
    ensures r == Some(Student) <==> v == Str("student")
    ensures r == Some(Landlord) <==> v == Str("landlord")
  {
    if v == Str("student") then Some(Student)
    else if v == Str("landlord") then Some(Landlord)
    else None
  }

  /** Some user already has this email or this username (compared as given, before sanitizing). */
  predicate Taken(users: map<int, User>, email: Value, username: Value) {
    exists k :: k in users && (users[k].email == email || users[k].username == username)
  }

  /** The error `POST /register` answers with, if any, checked in the handler's order. */
  function RegisterRefusal(db: Db, r: Registration): (e: Option<Error>)
    ensures e == Some(MissingFields) <==> !RequiredPresent(r)
    ensures e == Some(InvalidRole) <==> RequiredPresent(r) && RegistrableRole(r.role).None?
    ensures e == Some(UserExists) <==>
      RequiredPresent(r) && RegistrableRole(r.role).Some? && Taken(db.users, r.email, r.username)
    ensures e.None? <==>
      RequiredPresent(r) && RegistrableRole(r.role).Some? && !Taken(db.users, r.email, r.username)
  {
    if !RequiredPresent(r) then Some(MissingFields)
    else if RegistrableRole(r.role).None? then Some(InvalidRole)
    else if Taken(db.users, r.email, r.username) then Some(UserExists)
    else None
  }

  /** A new account starts unverified, with its username and full name sanitized and its email as given. */
  function Register(db: Db, r: Registration): (s: Step<int>)
    ensures var refusal := RegisterRefusal(db, r);
      && (s.result.Err? <==> refusal.Some?)
      && (s.result.Err? ==> s.result.error == refusal.value && s.db == db)
    ensures s.result.Ok? ==>
      && s.db == db.(users := s.db.users, nextUserId := s.db.nextUserId)
      && s.result.value in s.db.users
      && var u := s.db.users[s.result.value];
      && !u.isVerified
      && Some(u.role) == RegistrableRole(r.role)
      && u.email == r.email
      && u.username == SanitizeInput(r.username)
      && u.fullName == SanitizeInput(r.fullName)
      && u.phoneNumber == Or(r.phoneNumber, Null)
      && forall k :: k in db.users && k != s.result.value ==> k in s.db.users && s.db.users[k] == db.users[k]
    ensures WellFormed(db) && s.result.Ok? ==> AddsOne(db.users, s.db.users, s.result.value)
    ensures WellFormed(db) ==> WellFormed(s.db)
    ensures UniqueEmails(db.users) ==> UniqueEmails(s.db.users)
    ensures WellFormed(db) ==> VerifiedKept(db.users, s.db.users)
  {
    var refusal := RegisterRefusal(db, r);
    if refusal.Some? then Step(db, Err(refusal.value))
    else
      var id := db.nextUserId;
      var u := User(SanitizeInput(r.username), r.email, RegistrableRole(r.role).value,
                    SanitizeInput(r.fullName), Or(r.phoneNumber, Null), false);
      InsertAtCounter(db.users, id, u);
      Step(db.(users := db.users[id := u], nextUserId := id + 1), Ok(id))
  }
}
