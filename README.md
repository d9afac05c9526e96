# Student housing back end: a Dafny model of its request handlers

The system is an Express/MySQL service that connects students with landlords.
Landlords list housing, but a landlord may list only after an admin has
checked one of their documents. Students book listings, and landlords confirm
or cancel those bookings. A student can ask a landlord to vouch for them.
Users message each other.

This project models the handlers in `server.js` that change the database, and
the one filter that decides which listings the public sees. The model is a
sequential state machine over in-memory tables.

- **Tables** (`tables.dfy`): the six tables, each a `map` from its
  auto-increment key to the row. Each table has a counter that inserts draw
  from, standing in for `insertId`. The `Error` datatype lists every 4xx
  answer, and `StatusCode` gives the HTTP status of each.
- **Request values** (`json.dfy`): request fields are JSON values (missing,
  `null`, string, number, boolean), and the handlers' truthiness tests
  (`if (!x)`, `x || d`) are JavaScript's. The two prices are the exception:
  see "## Left out". A numeric id taken from the body or the path
  is an `int`, where `0` means missing. Auto-increment ids start at 1.
- **`sanitizeInput`** (`sanitize.dfy`): `trim()` followed by deleting every
  `<` and `>`. Values that are not strings pass through unchanged.
- **One pure transition per handler**:
  - `Accounts.Register`;
  - `Listings.CreateListing`, `UpdateListing`, `DeleteListing`;
  - `Bookings.CreateBooking`, `ConfirmBooking`, `CancelBooking`;
  - `Verifications.SubmitVerification`, `RequestVerification`, `ReviewVerification`;
  - `StudentChecks.RequestStudentVerification`, `ReviewStudentVerification`;
  - `Messaging.FetchConversation`.

  Each maps a snapshot `Db` to a `Step`: the new snapshot plus the response.
- **Refusal functions**: before each transition, a refusal function such as
  `Bookings.ConfirmBookingRefusal` runs the handler's checks in the handler's
  order. It names the first check that fails, including the `requireRole`
  check of the route. Its contract gives, for every error, the exact condition
  under which that error is the answer. The transition's contract says that
  it answers with that error and changes nothing, or succeeds in exactly the
  remaining case.
- **`Server.Store`** (`server.dfy`): a class whose fields are the tables.
  - Each handler is a method that runs the refusal function and then issues
    the handler's SQL statements in place. Each statement is its own small
    method: insert at the counter, update one row, delete one row, or set
    `is_verified`.
  - Every handler method ensures that its response and the new state equal
    the pure transition of the same name, and that the store stays well
    formed.
  - In `PUT /listings/:id`, the `updates` array is built `push` by `push`
    (`BuildUpdates`), then applied by a loop (`RunUpdates`).
- **Scenarios** (`scenarios.dfy`): lemmas about several requests in a row.
  Some chain ordinary features, such as approval unlocking listing, or cancel
  followed by rebooking. Others show where the checks as written let a table
  reach a state that other handlers try to prevent.

The model keeps these behaviours of the code as written:

- Confirming a booking refuses only an already-confirmed booking. A
  cancelled booking can be confirmed, even after the student has booked the
  listing again, so the student ends up with two live bookings
  (`Scenarios.ConfirmRevivesCancelled`).
- `POST /verifications` refuses a pending or approved record of the same
  type. The older `POST /verification/request` refuses while any record of
  the caller is pending, whatever its type, and stores the document URL
  without sanitizing it. So each route allows a state the other refuses
  (`Scenarios.LegacyRequestDuplicatesApproved`,
  `Scenarios.SubmitAllowsTwoPending`).
- Registration checks the username as given against the table, but stores
  it sanitized. So two accounts can end up with the same stored username
  (`Scenarios.SanitizedUsernamesCollide`, `Scenarios.BracketedUsername`).
- `sanitizeInput` trims before it deletes brackets. The result can therefore
  start or end with whitespace, and sanitizing twice can differ from
  sanitizing once (`Sanitize.SanitizeNotIdempotent`).
- Cancelling has no role check. The booking's student or the listing's
  landlord may cancel, and the listing goes back to `available`.

## Model

| member | source | states |
|---|---|---|
| Sanitize.TrimStart | server.js:49 | the result is a suffix of the input, everything removed is whitespace, and the result does not start with whitespace |
| Sanitize.TrimEnd | server.js:49 | the result is a prefix of the input, everything removed is whitespace, and the result does not end with whitespace |
| Sanitize.Trim | server.js:49 | `trim()` returns the slice of the input between its leading and trailing whitespace, and that slice has no whitespace at either end |
| Sanitize.TrimIdempotent | server.js:49 | trimming an already trimmed string changes nothing |
| Sanitize.StripAngles | server.js:49 | `replace(/[<>]/g, '')` leaves no `<` or `>`, never lengthens the string, and leaves a string without brackets untouched |
| Sanitize.StripAnglesKeepsOthers | server.js:49 | every character other than `<` and `>` occurs in the result exactly as often as in the input |
| Sanitize.StripAnglesAppend | server.js:49 | deleting brackets works character by character, so it distributes over concatenation |
| Sanitize.SanitizeInput | server.js:47-50 | a non-string input comes back unchanged; a string comes back as a string with no angle brackets and no longer than the input |
| Sanitize.SanitizeDeletesOnlyAngles | server.js:47-50 | sanitizing removes only edge whitespace and angle brackets; every other character of the trimmed input is kept, as often as it occurs |
| Sanitize.SanitizeKeepsClean | server.js:47-50 | a trimmed string without brackets passes through unchanged |
| Sanitize.SanitizeNotIdempotent | server.js:47-50 | `" <> a"` sanitizes to `" a"`, and sanitizing that again gives `"a"`: trimming first leaves whitespace that the brackets shielded |
| Json.Or | server.js:155 | `a \|\| b` is `a` when `a` is truthy and `b` otherwise |
| Tables.StatusCode | server.js:125-1011 | role, verification and ownership refusals answer 403; missing listings, bookings, verifications and landlords answer 404; everything else answers 400 |
| Tables.InsertAtCounter | server.js:152-156 | inserting at the counter adds exactly one new row under a fresh key, and every key stays below the advanced counter |
| Tables.MarkVerified | server.js:1002-1004 | `UPDATE User SET is_verified = 1` sets the flag on that user only, and on no row if the user is absent; no flag is cleared and no user is removed |
| Tables.Decision | server.js:980-982 | a reviewer's status is accepted exactly when it is `approved` or `rejected`, and it never means pending |
| Accounts.RegistrableRole | server.js:134-136 | only `student` and `landlord` can be chosen; admin is never a registrable role |
| Accounts.RegisterRefusal | server.js:125-145 | missing required field, then invalid role, then email or username already present (compared as given): each error exactly when the earlier checks pass and its own fails; no error exactly when all pass |
| Accounts.Register | server.js:125-166 | a refusal changes nothing; otherwise one unverified user is added under a fresh id, with the chosen role, the email as given, the username and full name sanitized, and the phone number or `null`; other users are unchanged, emails stay unique, and no verified user loses the flag |
| Listings.PublicListings | server.js:318 | a listing appears in the public queries exactly when it is verified, with its stored row |
| Listings.CreateListingRefusal | server.js:388-407 | non-landlord, then landlord not verified or absent, then missing title or location or non-positive price: each error under exactly its condition |
| Listings.CreateListing | server.js:388-434 | a refusal changes nothing; otherwise one listing is added for the caller, unverified and so not public, with the positive price given, sanitized title, location, description and amenities (empty when absent), proximity and available-from date or `null`, status `available`; the set of public listings is unchanged |
| Listings.UpdatesFor | server.js:450-464 | the `updates` list has at most eight entries, and it is empty exactly when every field fails its `if` (falsy, or `undefined` for the proximity) |
| Listings.ApplyIf | server.js:452-459 | one conditional `push` changes at most the one column it names, and never the owner or `is_verified` |
| Listings.ApplyPush | server.js:450-471 | running the statement after one more conditional `push` equals applying that push to the row the statement built so far |
| Listings.UpdatesThenApply | server.js:450-471 | building the updates list and running the `UPDATE` equals changing each supplied column in place |
| Listings.EditListing | server.js:450-471 | after an edit, each field that passes its `if` holds its new value (sanitized for the text fields, `parseFloat` of the sent value for the price) and every other field, the owner and `is_verified` keep their old values |
| Listings.UpdateListingRefusal | server.js:436-464 | non-landlord, then listing absent or owned by someone else (both 404), then no field supplied: each error under exactly its condition |
| Listings.UpdateListing | server.js:436-478 | a refusal changes nothing; otherwise only the edited row changes, to `EditListing` of the old row, and the set of public listings is unchanged |
| Listings.ReplaceKeepsPublic | server.js:468-471 | rewriting a row without touching its `is_verified` flag leaves the set of public listings unchanged |
| Listings.DeleteListingRefusal | server.js:480-489 | non-landlord, then listing absent or not the caller's: each error under exactly its condition |
| Listings.DeleteListing | server.js:480-498 | a refusal changes nothing; otherwise exactly that listing row is gone and every other row is unchanged |
| Bookings.CreateBookingRefusal | server.js:533-559 | non-student, then missing listing id or date, then listing not available-and-verified, then an existing non-cancelled booking of the caller: each error under exactly its condition |
| Bookings.CreateBooking | server.js:533-579 | a refusal changes nothing; otherwise one pending booking is added and that listing, and only that listing, becomes `booked`; at most one live booking per student and listing is preserved |
| Bookings.ConfirmBookingRefusal | server.js:581-600 | non-landlord, then booking or its listing absent, then caller not the listing's owner, then already confirmed: each error under exactly its condition; a cancelled booking is not refused |
| Bookings.ConfirmBooking | server.js:581-612 | a refusal changes nothing; otherwise only that booking's status becomes confirmed and the listing is untouched; one live booking per pair is kept only if the confirmed booking was already live |
| Bookings.CancelBookingRefusal | server.js:614-634 | booking or its listing absent, then caller neither the booking's student nor the listing's landlord, then already cancelled: each error under exactly its condition; there is no role check |
| Bookings.CancelBooking | server.js:614-644 | a refusal changes nothing; otherwise the booking becomes cancelled and its listing `available`, with no other row touched; one live booking per pair is preserved |
| Verifications.VerificationTypeOf | server.js:251-254 | a type is accepted exactly when it is one of `national_id`, `title_deed`, `utility_bill`, `other`, and each of these names its own type |
| Verifications.SubmitRefusal | server.js:243-266 | non-landlord, then missing type or URL, then unknown type, then a pending or approved record of the same type: each error under exactly its condition |
| Verifications.SubmitVerification | server.js:243-282 | a refusal changes nothing; otherwise one pending record is added with the sanitized URL; at most one pending-or-approved record per landlord and type is preserved |
| Verifications.RequestRefusal | server.js:899-920 | non-landlord, then missing type or URL, then unknown type, then any pending record of the caller, whatever its type: each error under exactly its condition |
| Verifications.RequestVerification | server.js:899-935 | a refusal changes nothing; otherwise one pending record is added with the URL as given; at most one pending record per landlord is preserved |
| Verifications.ReviewRefusal | server.js:976-995 | non-admin, then status neither approved nor rejected, then record absent, then record not pending: each error under exactly its condition |
| Verifications.ReviewVerification | server.js:976-1011 | a refusal changes nothing; otherwise the record takes the decision and the reviewer; approval turns the user table into `MarkVerified` of it for the landlord, so only that flag changes; rejection leaves users alone; no verified flag is ever cleared and both uniqueness rules are preserved |
| StudentChecks.RequestRefusal | server.js:764-788 | non-student, then missing landlord id or URL, then no landlord with that id, then a pending request to that landlord: each error under exactly its condition |
| StudentChecks.RequestStudentVerification | server.js:764-804 | a refusal changes nothing; otherwise one pending request from the caller to that landlord is added, with sanitized URL and document type (default `student_id`); at most one pending request per student and landlord is preserved |
| StudentChecks.InsertKeepsOnePending | server.js:782-794 | inserting a pending request for a pair that has none keeps one pending request per pair |
| StudentChecks.ReviewRefusal | server.js:858-878 | non-landlord, then invalid status, then request absent or addressed to another landlord (both 404), then not pending: each error under exactly its condition |
| StudentChecks.ReviewStudentVerification | server.js:858-895 | a refusal changes nothing; otherwise the request takes the decision and sanitized notes; approval turns the user table into `MarkVerified` of it for the student, so only that flag changes; rejection leaves users alone; no verified flag is cleared |
| Messaging.UnreadIds | server.js:663-664 | the unread messages from one user to another are exactly those sent by the first to the second and not yet read |
| Messaging.MarkRead | server.js:695-698 | afterwards nothing from the other user to the caller is unread; no message other than those is touched, no message is added, removed or rewritten, and nothing read becomes unread |
| Messaging.FetchConversation | server.js:681-705 | the response holds exactly the messages between the two users whose sender exists, as they were before the call; the store then differs only in the read flags MarkRead sets |
| Messaging.MarkReadIdempotent | server.js:695-698 | marking the conversation read a second time changes nothing |
| Server.BuildUpdates | server.js:450-460 | pushing one update per supplied field builds exactly the update list `Listings.UpdatesFor` describes |
| Server.RunUpdates | server.js:468-471 | applying the updates in order to the row, one at a time, yields `Listings.ApplyAll` of them |
| Server.Store.InsertUser | server.js:152-156 | the new user goes under the next id; only the user table and its counter change; the store stays well formed |
| Server.Store.InsertListing | server.js:419-423 | the new listing goes under the next id; only the listing table and its counter change |
| Server.Store.InsertBooking | server.js:561-564 | the new booking goes under the next id; only the booking table and its counter change |
| Server.Store.InsertVerification | server.js:268-272 | the new record goes under the next id; only the verification table and its counter change |
| Server.Store.InsertStudentVerification | server.js:790-794 | the new request goes under the next id; only its table and counter change |
| Server.Store.SetListing | server.js:468-471 | only the one listing row is replaced |
| Server.Store.RemoveListing | server.js:491 | only the one listing row is removed |
| Server.Store.SetBooking | server.js:602-605 | only the one booking row is replaced |
| Server.Store.SetVerification | server.js:997-1000 | only the one verification row is replaced |
| Server.Store.SetStudentVerification | server.js:880-883 | only the one student verification row is replaced |
| Server.Store.MarkUserVerified | server.js:886-888 | the user table becomes `MarkVerified` of the old one and nothing else changes |
| Server.Store.Register | server.js:125-166 | response and new store are those of `Accounts.Register`; the store stays well formed |
| Server.Store.CreateListing | server.js:388-434 | response and new store are those of `Listings.CreateListing` |
| Server.Store.UpdateListing | server.js:436-478 | response and new store are those of `Listings.UpdateListing`; the row is edited by the push-built statement |
| Server.Store.DeleteListing | server.js:480-498 | response and new store are those of `Listings.DeleteListing` |
| Server.Store.CreateBooking | server.js:533-579 | response and new store are those of `Bookings.CreateBooking` |
| Server.Store.ConfirmBooking | server.js:581-612 | response and new store are those of `Bookings.ConfirmBooking` |
| Server.Store.CancelBooking | server.js:614-644 | response and new store are those of `Bookings.CancelBooking` |
| Server.Store.SubmitVerification | server.js:243-282 | response and new store are those of `Verifications.SubmitVerification` |
| Server.Store.RequestVerification | server.js:899-935 | response and new store are those of `Verifications.RequestVerification` |
| Server.Store.ReviewVerification | server.js:976-1011 | response and new store are those of `Verifications.ReviewVerification` |
| Server.Store.RequestStudentVerification | server.js:764-804 | response and new store are those of `StudentChecks.RequestStudentVerification` |
| Server.Store.ReviewStudentVerification | server.js:858-895 | response and new store are those of `StudentChecks.ReviewStudentVerification` |
| Server.Store.FetchConversation | server.js:681-705 | response and new store are those of `Messaging.FetchConversation` |
| Scenarios.ApprovalUnlocksListing | server.js:391-400 | an unverified landlord is refused a listing; after they submit a document and an admin approves it, the same listing is accepted |
| Scenarios.BookedListingIsTaken | server.js:542-549 | after one booking succeeds, any student's booking of that listing is refused as unavailable |
| Scenarios.CancelThenRebook | server.js:614-644 | a student who cancels their booking can book the same listing again |
| Scenarios.ConfirmRevivesCancelled | server.js:598-605 | book, cancel, rebook, then confirm the first booking: every step succeeds and the student holds two live bookings of one listing |
| Scenarios.LegacyRequestDuplicatesApproved | server.js:913-925 | with an approved document of a type and nothing pending, the older route files a second live document of that type |
| Scenarios.SubmitAllowsTwoPending | server.js:256-272 | with one document pending, a document of another type is accepted by `POST /verifications`, giving two pending records, while the older route refuses it |
| Scenarios.ReviewIsFinal | server.js:993-995 | a decided document cannot be decided again |
| Scenarios.StudentReviewIsFinal | server.js:876-878 | a decided student request cannot be decided again |
| Scenarios.SanitizedUsernamesCollide | server.js:138-156 | two registrations whose usernames differ as given but sanitize alike both succeed, and the user table then holds a username twice |
| Scenarios.BracketedUsername | server.js:138-156 | `"<bob>"` is stored as `"bob"`, yet it differs from a stored `"bob"` in the duplicate check |
| Scenarios.EditKeepsPublicListings | server.js:436-478 | no edit, whether refused or accepted, changes which listings the public queries show |
| Scenarios.ZeroPriceStringIsAnEdit | server.js:456 | an edit that sends only the price as the string `"0"` passes `if (price)`, succeeds, and stores price 0 |
| Scenarios.FetchTwiceMarksOnce | server.js:681-705 | opening the same conversation twice leaves the store as after the first time |

## Left out

- Password hashing and login: bcrypt and JWT are foreign code. The
  authenticated caller (user id and role) is a parameter of every handler,
  and the password hash is not a column of the modelled `User` row.
- Express plumbing: routing, CORS, logging, JSON parsing, 401 for a missing
  token, and the 500 answers for store failures. Every SQL statement is
  modelled as succeeding, and one request runs at a time.
- Atomicity across statements: the model has no failure between two
  statements, so the non-atomic insert-then-update of `POST /bookings` is
  not captured.
- Concurrency: two requests racing between a duplicate check and an insert
  are not modelled.
- The read-only routes are not part of this model:
  - `GET /users`, `/profile`, `/verifications`, `/verifications/my`;
  - `/listings/:id`, which does not filter on `is_verified`;
  - `/bookings`, `/messages/conversations`, `/messages`;
  - the student-verification listings;
  - `/dashboard/stats`, `/test-db`, `/health`.

  `POST /messages` and `POST /login` are not part of it either.
  `Messaging.UnreadIds` states only which rows the unread count would count.
- Messaging.FetchConversation: returns the conversation as a map keyed by
  message id. It leaves out the `ORDER BY sent_at` order and the joined
  `sender_name` and `listing_title` columns.
- Listings.PublicListings: models only the `is_verified = 1` filter of
  `GET /listings` and `GET /search`. It leaves out the query filters
  (status, which defaults to `available`; location; prices; distance;
  landlord), the `LIKE` matching, the ordering, and the joined landlord
  columns. Both queries inner-join `User` on `landlord_id`, so the source
  also hides a verified listing whose landlord row is missing. The model
  still shows it.
- `parseFloat` and `isNaN`:
  - Listings.CreateListingRefusal: the price of `POST /listings` is an
    `Option<real>`: the number the sent value stands for, or `None`. The
    model stores that same number. The source tests the value with `isNaN`
    and `<= 0`, but stores `parseFloat` of it, and the two can disagree:
    `true` passes the test, yet `parseFloat(true)` is `NaN`.
  - Listings.EditListing: the edit carries the price as sent, which the
    `if (price)` test reads, and `parsedPrice`, the number `parseFloat`
    gives. A sent string `"0"` is therefore an update that stores `0`, as
    in the source. When `parseFloat` gives `NaN`, the source sends `NaN`
    to the database. The model has no `NaN`: `parsedPrice` is a real
    supplied with the edit, and nothing ties it to the sent value.
  - `proximity_to_campus` is stored as given, without `parseFloat`.
- Timestamps: `NOW()`, `created_at`, `verified_at` and `reviewed_at` are
  not modelled.
- The schema is not part of this model:
  - The insert of `POST /listings` names no `status` column. The model
    assumes the column defaults to `available`.
  - The `Verification` insert names no `verified_by` column. The model
    assumes it starts empty (`None`).
  - The `StudentVerification` insert names no `notes` column. The model
    assumes it starts as `null`.
  - Foreign-key actions on `DELETE FROM Listing` are unknown, so only the
    listing row is removed. A booking whose listing is gone is then not
    found by confirm or cancel, which look it up with a join.
  - MySQL collation is not modelled. Comparisons, including the duplicate
    email and username check, are exact.
  - `insertId` is modelled as a per-table counter starting at 1.
- Number, boolean and `null` values sent where the code expects a string are
  kept as values and compared exactly. JSON arrays and objects are not
  modelled.
- `hash_demo_passwords.js` is a one-off maintenance script and is not part
  of this model.
