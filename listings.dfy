/**
 * `POST /listings`, `PUT /listings/:id` and `DELETE /listings/:id` (server.js),
 * and the `is_verified` filter the public listing queries apply.
 */
module Listings {
  import opened Wrappers
  import opened Json
  import opened Sanitize
  import opened Tables

  /** The body of `POST /listings`; a price is `None` when absent or not a number. */
  datatype ListingInput = ListingInput(title: Value, description: Value, location: Value,
                                       price: Option<real>, amenities: Value,
                                       proximityToCampus: Value, availableFrom: Value)

  /**
   * The body of `PUT /listings/:id`. `price` is the value as sent, which the
   * handler tests for truthiness; `parsedPrice` is what `parseFloat` makes of it.
   */
  datatype ListingEdit = ListingEdit(title: Value, description: Value, location: Value,
                                     price: Value, parsedPrice: real, amenities: Value,
                                     proximityToCampus: Value, availableFrom: Value, status: Value)

  /** One `column = ?` entry of the `UPDATE Listing SET ...` the edit handler builds. */
  datatype Update =
    | SetTitle(v: Value)
    | SetDescription(v: Value)
    | SetLocation(v: Value)
    | SetPrice(p: real)
    | SetAmenities(v: Value)
    | SetProximity(v: Value)
    | SetAvailableFrom(v: Value)
    | SetStatus(v: Value)

  /** A listing shows up in the public queries only once an admin has verified it. */
  predicate PubliclyVisible(l: Listing) {
    l.isVerified
  }

  /** The rows `GET /listings` and `GET /search` can return, before their other filters. */
  function PublicListings(listings: map<int, Listing>): (pub: map<int, Listing>)
    ensures forall k :: k in pub <==> k in listings && PubliclyVisible(listings[k])
    ensures forall k :: k in pub ==> pub[k] == listings[k]
  {
    map k | k in listings && PubliclyVisible(listings[k]) :: listings[k]
  }

  predicate PositivePrice(p: Option<real>) {
    p.Some? && p.value > 0.0
  }

  predicate Owns(db: Db, caller: Caller, id: int) {
    id in db.listings && db.listings[id].landlordId == caller.userId
  }

  /** The row `POST /listings` inserts for a landlord. */
  function NewListing(landlord: int, input: ListingInput): Listing
    requires PositivePrice(input.price)
  {
    Listing(landlord, SanitizeInput(input.title), SanitizeInput(Or(input.description, Str(""))),
            SanitizeInput(input.location), input.price.value,
            SanitizeInput(Or(input.amenities, Str(""))),
            if Truthy(input.proximityToCampus) then input.proximityToCampus else Null,
            Or(input.availableFrom, Null), Available, false)
  }

  /** The error `POST /listings` answers with, if any, checked in the handler's order. */
  function CreateListingRefusal(db: Db, caller: Caller, input: ListingInput): (e: Option<Error>)
    ensures e == Some(InsufficientPermissions) <==> caller.role != Landlord
    ensures e == Some(NotVerified) <==>
      caller.role == Landlord && !(caller.userId in db.users && db.users[caller.userId].isVerified)
    ensures e == Some(InvalidListing) <==>
      && caller.role == Landlord && caller.userId in db.users && db.users[caller.userId].isVerified
      && !(Truthy(input.title) && Truthy(input.location) && PositivePrice(input.price))
    ensures e.None? <==>
      && caller.role == Landlord && caller.userId in db.users && db.users[caller.userId].isVerified
      && Truthy(input.title) && Truthy(input.location) && PositivePrice(input.price)
  {
    if caller.role != Landlord then Some(InsufficientPermissions)
    else if !(caller.userId in db.users && db.users[caller.userId].isVerified) then Some(NotVerified)
    else if !(Truthy(input.title) && Truthy(input.location) && PositivePrice(input.price)) then Some(InvalidListing)
    else None
  }

  /** Only a verified landlord may list; the new listing is unverified, so not yet public. */
  function CreateListing(db: Db, caller: Caller, input: ListingInput): (s: Step<int>)
    ensures var refusal := CreateListingRefusal(db, caller, input);
      && (s.result.Err? <==> refusal.Some?)
      && (s.result.Err? ==> s.result.error == refusal.value && s.db == db)
    ensures s.result.Ok? ==>
      && s.db == db.(listings := s.db.listings, nextListingId := s.db.nextListingId)
      && s.result.value in s.db.listings
      && var l := s.db.listings[s.result.value];
      && l.landlordId == caller.userId
      && !l.isVerified
      && s.result.value !in PublicListings(s.db.listings)
      && l.price > 0.0 && l.price == input.price.value
      && l.title == SanitizeInput(input.title)
      && l.description == SanitizeInput(Or(input.description, Str("")))
      && l.location == SanitizeInput(input.location)
      && l.amenities == SanitizeInput(Or(input.amenities, Str("")))
      && l.proximityToCampus == (if Truthy(input.proximityToCampus) then input.proximityToCampus else Null)
      && l.availableFrom == Or(input.availableFrom, Null)
      && l.status == Available
    ensures WellFormed(db) && s.result.Ok? ==> AddsOne(db.listings, s.db.listings, s.result.value)
    ensures WellFormed(db) ==> WellFormed(s.db)
    ensures WellFormed(db) ==> PublicListings(s.db.listings) == PublicListings(db.listings)
  {
    var refusal := CreateListingRefusal(db, caller, input);
    if refusal.Some? then Step(db, Err(refusal.value))
    else
      var id := db.nextListingId;
      var l := NewListing(caller.userId, input);
      InsertAtCounter(db.listings, id, l);
      Step(db.(listings := db.listings[id := l], nextListingId := id + 1), Ok(id))
  }

  /** `if (c) { updates.push(u) }`. */
  function Push(us: seq<Update>, c: bool, u: Update): seq<Update> {
    if c then us + [u] else us
  }

  // Whether each field of an edit is supplied, by the handler's own tests.
  predicate HasPrice(e: ListingEdit) { Truthy(e.price) }
  predicate HasProximity(e: ListingEdit) { e.proximityToCampus != Undefined }

  function PriceOf(e: ListingEdit): real { e.parsedPrice }

  /** The `if (field) { updates.push(...) }` chain of the edit handler, in its order. */
  function UpdatesFor(e: ListingEdit): (us: seq<Update>)
    ensures |us| <= 8
    ensures us == [] <==>
      && !Truthy(e.title) && !Truthy(e.description) && !Truthy(e.location) && !HasPrice(e)
      && !Truthy(e.amenities) && !HasProximity(e) && !Truthy(e.availableFrom) && !Truthy(e.status)
  {
    var u1 := Push([], Truthy(e.title), SetTitle(SanitizeInput(e.title)));
    var u2 := Push(u1, Truthy(e.description), SetDescription(SanitizeInput(e.description)));
    var u3 := Push(u2, Truthy(e.location), SetLocation(SanitizeInput(e.location)));
    var u4 := Push(u3, HasPrice(e), SetPrice(PriceOf(e)));
    var u5 := Push(u4, Truthy(e.amenities), SetAmenities(SanitizeInput(e.amenities)));
    var u6 := Push(u5, HasProximity(e), SetProximity(e.proximityToCampus));
    var u7 := Push(u6, Truthy(e.availableFrom), SetAvailableFrom(e.availableFrom));
    Push(u7, Truthy(e.status), SetStatus(e.status))
  }

  function Apply(l: Listing, u: Update): Listing {
    match u
    case SetTitle(v) => l.(title := v)
    case SetDescription(v) => l.(description := v)
    case SetLocation(v) => l.(location := v)
    case SetPrice(p) => l.(price := p)
    case SetAmenities(v) => l.(amenities := v)
    case SetProximity(v) => l.(proximityToCampus := v)
    case SetAvailableFrom(v) => l.(availableFrom := v)
    case SetStatus(v) => l.(status := v)
  }

  /** The row after `UPDATE Listing SET <us, in order>`. */
  function ApplyAll(l: Listing, us: seq<Update>): Listing
  {
    if us == [] then l else Apply(ApplyAll(l, us[..|us| - 1]), us[|us| - 1])
  }

  /** `Apply` when `c` holds: it changes at most the one column `u` names. */
  function ApplyIf(l: Listing, c: bool, u: Update): (r: Listing)
    ensures r.landlordId == l.landlordId && r.isVerified == l.isVerified
    ensures r.title == if c && u.SetTitle? then u.v else l.title
    ensures r.description == if c && u.SetDescription? then u.v else l.description
    ensures r.location == if c && u.SetLocation? then u.v else l.location
    ensures r.price == if c && u.SetPrice? then u.p else l.price
    ensures r.amenities == if c && u.SetAmenities? then u.v else l.amenities
    ensures r.proximityToCampus == if c && u.SetProximity? then u.v else l.proximityToCampus
    ensures r.availableFrom == if c && u.SetAvailableFrom? then u.v else l.availableFrom
    ensures r.status == if c && u.SetStatus? then u.v else l.status
  {
    if c then Apply(l, u) else l
  }

  /** Running the statement built so far plus one conditional push. */
  lemma {:induction false} ApplyPush(l: Listing, us: seq<Update>, c: bool, u: Update)
    ensures ApplyAll(l, Push(us, c, u)) == ApplyIf(ApplyAll(l, us), c, u)
  {
    if c {
      assert (us + [u])[..|us|] == us;
    }
  }

  /** The same edit as one record update: every supplied column takes its new value. */
  function EditInPlace(l: Listing, e: ListingEdit): Listing {
    l.(title := if Truthy(e.title) then SanitizeInput(e.title) else l.title,
       description := if Truthy(e.description) then SanitizeInput(e.description) else l.description,
       location := if Truthy(e.location) then SanitizeInput(e.location) else l.location,
       price := if HasPrice(e) then PriceOf(e) else l.price,
       amenities := if Truthy(e.amenities) then SanitizeInput(e.amenities) else l.amenities,
       proximityToCampus := if HasProximity(e) then e.proximityToCampus else l.proximityToCampus,
       availableFrom := if Truthy(e.availableFrom) then e.availableFrom else l.availableFrom,
       status := if Truthy(e.status) then e.status else l.status)
  }

  /** Eight conditional one-column updates in a row are one record update, for arbitrary new values. */
  lemma {:induction false} EditInPlaceFields(l: Listing, c1: bool, v1: Value, c2: bool, v2: Value,
                                             c3: bool, v3: Value, c4: bool, p4: real,
                                             c5: bool, v5: Value, c6: bool, v6: Value,
                                             c7: bool, v7: Value, c8: bool, v8: Value)
    ensures ApplyIf(ApplyIf(ApplyIf(ApplyIf(ApplyIf(ApplyIf(ApplyIf(ApplyIf(l,
              c1, SetTitle(v1)), c2, SetDescription(v2)), c3, SetLocation(v3)), c4, SetPrice(p4)),
              c5, SetAmenities(v5)), c6, SetProximity(v6)), c7, SetAvailableFrom(v7)), c8, SetStatus(v8))
         == l.(title := if c1 then v1 else l.title,
               description := if c2 then v2 else l.description,
               location := if c3 then v3 else l.location,
               price := if c4 then p4 else l.price,
               amenities := if c5 then v5 else l.amenities,
               proximityToCampus := if c6 then v6 else l.proximityToCampus,
               availableFrom := if c7 then v7 else l.availableFrom,
               status := if c8 then v8 else l.status)
  {
  }

  /** Building the update list and running it is the same as editing field by field. */
  lemma {:induction false} UpdatesThenApply(l: Listing, e: ListingEdit)
    ensures ApplyAll(l, UpdatesFor(e)) == EditInPlace(l, e)
  {
    ChainOfEight(l, Truthy(e.title), SetTitle(SanitizeInput(e.title)),
                 Truthy(e.description), SetDescription(SanitizeInput(e.description)),
                 Truthy(e.location), SetLocation(SanitizeInput(e.location)),
                 HasPrice(e), SetPrice(PriceOf(e)),
                 Truthy(e.amenities), SetAmenities(SanitizeInput(e.amenities)),
                 HasProximity(e), SetProximity(e.proximityToCampus),
                 Truthy(e.availableFrom), SetAvailableFrom(e.availableFrom),
                 Truthy(e.status), SetStatus(e.status));
    EditInPlaceFields(l, Truthy(e.title), SanitizeInput(e.title),
                      Truthy(e.description), SanitizeInput(e.description),
                      Truthy(e.location), SanitizeInput(e.location), HasPrice(e), PriceOf(e),
                      Truthy(e.amenities), SanitizeInput(e.amenities),
                      HasProximity(e), e.proximityToCampus, Truthy(e.availableFrom), e.availableFrom,
                      Truthy(e.status), e.status);
  }

  lemma {:induction false} ChainOfEight(l: Listing, c1: bool, x1: Update, c2: bool, x2: Update,
                                        c3: bool, x3: Update, c4: bool, x4: Update,
                                        c5: bool, x5: Update, c6: bool, x6: Update,
                                        c7: bool, x7: Update, c8: bool, x8: Update)
    ensures ApplyAll(l, Push(Push(Push(Push(Push(Push(Push(Push([], c1, x1), c2, x2), c3, x3), c4, x4),
                                             c5, x5), c6, x6), c7, x7), c8, x8))
         == ApplyIf(ApplyIf(ApplyIf(ApplyIf(ApplyIf(ApplyIf(ApplyIf(ApplyIf(l, c1, x1), c2, x2), c3, x3),
                                                    c4, x4), c5, x5), c6, x6), c7, x7), c8, x8)
  {
    var u1 := Push([], c1, x1);
    var u2 := Push(u1, c2, x2);
    var u3 := Push(u2, c3, x3);
    var u4 := Push(u3, c4, x4);
    var u5 := Push(u4, c5, x5);
    var u6 := Push(u5, c6, x6);
    var u7 := Push(u6, c7, x7);
    assert ApplyAll(l, []) == l;
    ApplyPush(l, [], c1, x1);
    ApplyPush(l, u1, c2, x2);
    ApplyPush(l, u2, c3, x3);
    ApplyPush(l, u3, c4, x4);
    ApplyPush(l, u4, c5, x5);
    ApplyPush(l, u5, c6, x6);
    ApplyPush(l, u6, c7, x7);
    ApplyPush(l, u7, c8, x8);
  }

  /**
   * The listing after a `PUT /listings/:id`: every supplied field takes the
   * (sanitized) new value, every other field and the owner and `is_verified` stay.
   */
  function EditListing(l: Listing, e: ListingEdit): (l': Listing)
    ensures l'.landlordId == l.landlordId && l'.isVerified == l.isVerified
    ensures l'.title == if Truthy(e.title) then SanitizeInput(e.title) else l.title
    ensures l'.description == if Truthy(e.description) then SanitizeInput(e.description) else l.description
    ensures l'.location == if Truthy(e.location) then SanitizeInput(e.location) else l.location
    ensures l'.price == if Truthy(e.price) then e.parsedPrice else l.price
    ensures l'.amenities == if Truthy(e.amenities) then SanitizeInput(e.amenities) else l.amenities
    ensures l'.proximityToCampus == if HasProximity(e) then e.proximityToCampus else l.proximityToCampus
    ensures l'.availableFrom == if Truthy(e.availableFrom) then e.availableFrom else l.availableFrom
    ensures l'.status == if Truthy(e.status) then e.status else l.status
  {
    UpdatesThenApply(l, e);
    ApplyAll(l, UpdatesFor(e))
  }

  /** The error `PUT /listings/:id` answers with, if any, checked in the handler's order. */
  function UpdateListingRefusal(db: Db, caller: Caller, id: int, e: ListingEdit): (r: Option<Error>)
    ensures r == Some(InsufficientPermissions) <==> caller.role != Landlord
    ensures r == Some(ListingNotFound) <==> caller.role == Landlord && !Owns(db, caller, id)
    ensures r == Some(NoFieldsToUpdate) <==> caller.role == Landlord && Owns(db, caller, id) && UpdatesFor(e) == []
    ensures r.None? <==> caller.role == Landlord && Owns(db, caller, id) && UpdatesFor(e) != []
  {
    if caller.role != Landlord then Some(InsufficientPermissions)
    else if !Owns(db, caller, id) then Some(ListingNotFound)
    else if UpdatesFor(e) == [] then Some(NoFieldsToUpdate)
    else None
  }

  /** Only the owner may edit a listing, and the edit leaves its `is_verified` flag alone. */
  function UpdateListing(db: Db, caller: Caller, id: int, e: ListingEdit): (s: Step<()>)
    ensures var refusal := UpdateListingRefusal(db, caller, id, e);
      && (s.result.Err? <==> refusal.Some?)
      && (s.result.Err? ==> s.result.error == refusal.value && s.db == db)
    ensures s.result.Ok? ==>
      && s.db == db.(listings := s.db.listings)
      && ChangesOnly(db.listings, s.db.listings, id)
      && s.db.listings[id] == EditListing(db.listings[id], e)
    ensures WellFormed(db) ==> WellFormed(s.db)
    ensures PublicListings(s.db.listings).Keys == PublicListings(db.listings).Keys
  {
    var refusal := UpdateListingRefusal(db, caller, id, e);
    if refusal.Some? then Step(db, Err(refusal.value))
    else
      var l := EditListing(db.listings[id], e);
      ReplaceKeepsPublic(db.listings, id, l);
      Step(db.(listings := db.listings[id := l]), Ok(()))
  }

  /** Rewriting a row without touching its `is_verified` flag leaves the public rows where they were. */
  lemma ReplaceKeepsPublic(listings: map<int, Listing>, id: int, l: Listing)
    requires id in listings && l.isVerified == listings[id].isVerified
    ensures PublicListings(listings[id := l]).Keys == PublicListings(listings).Keys
  {
  }

  /** The error `DELETE /listings/:id` answers with, if any, checked in the handler's order. */
  function DeleteListingRefusal(db: Db, caller: Caller, id: int): (e: Option<Error>)
    ensures e == Some(InsufficientPermissions) <==> caller.role != Landlord
    ensures e == Some(ListingNotFound) <==> caller.role == Landlord && !Owns(db, caller, id)
    ensures e.None? <==> caller.role == Landlord && Owns(db, caller, id)
  {
    if caller.role != Landlord then Some(InsufficientPermissions)
    else if !Owns(db, caller, id) then Some(ListingNotFound)
    else None
  }

  /** Only the owner may delete a listing; no other row is touched. */
  function DeleteListing(db: Db, caller: Caller, id: int): (s: Step<()>)
    ensures var refusal := DeleteListingRefusal(db, caller, id);
      && (s.result.Err? <==> refusal.Some?)
      && (s.result.Err? ==> s.result.error == refusal.value && s.db == db)
    ensures s.result.Ok? ==>
      && s.db == db.(listings := s.db.listings)
      && s.db.listings.Keys == db.listings.Keys - {id}
      && forall k :: k in s.db.listings ==> s.db.listings[k] == db.listings[k]
    ensures WellFormed(db) ==> WellFormed(s.db)
  {
    var refusal := DeleteListingRefusal(db, caller, id);
    if refusal.Some? then Step(db, Err(refusal.value))
    else Step(db.(listings := db.listings - {id}), Ok(()))
  }
}
