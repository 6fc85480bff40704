# Secure-access API: visitor codes, complaints and account tokens

This project models the core of an estate-management API written in PHP with
Laravel, and proves properties of the model. On the API, residents issue
short-lived visitor codes, staff check visitors in and out, residents file
complaints that admins handle, and accounts move through email verification
and password reset and setup. Each core source file becomes one Dafny module:

| module | file | models |
|---|---|---|
| `Common` | `common.dfy` | `Option`, user types, the staff predicate, the activity record, validation helpers, `where()->get()` / `->first()` / `->count()` over a table, and `strtoupper` |
| `VisitorCodes` | `visitor_code.dfy` | the visitor-code record, `isExpired`, `isVerified` and the `active` / `expired` query scopes |
| `VisitorCodeController` | `visitor_code_controller.dfy` | `store` with its regeneration loop, `verify`, `verifyByCode`, `cancel`, `setTimeIn` and `setTimeOut`, over a table class holding the rows and the activity log |
| `ExpireVisitorCodes` | `expire_visitor_codes.dfy` | the `visitor-codes:expire` console command as an in-place loop over the table |
| `MaintainerMiddleware` | `maintainer_middleware.dfy` | the authenticated-and-staff gate |
| `Announcements` | `announcement.dfy` | the `active` / `published` scopes and the `isExpired` / `isPublished` accessors |
| `ComplaintController` | `complaint_controller.dfy` | `store`, `update` and `reply` over a class holding complaints, replies and the log; `index`, `statistics` and `categories` as functions |
| `AuthController` | `auth_controller.dfy` | `register`, `verifyEmailWithCode`, `resendVerificationCode`, `forgotPassword`, `resetPassword` and `setPassword`, with `$fillable` mass assignment made explicit |

The modelling choices:

- **Tables and ids.** A table is a `seq` field of a class, and a row's id is its position.
- **Soft deletes.** A soft-deleted row stays in the table with `trashed` set. Every query and every `findOrFail` skips it.
- **Clock.** Time is an integer number of seconds, and `now` is always a parameter. "Ten minutes" is 600.
- **Guard order.** The guards of each endpoint are a pure *refusal function* (`VerifyRefusal`, `StoreRefusal`, `UpdateRefusal`, `EmailRefusal`, ...). It returns the first guard that fails, in the controller's order, and nothing when every guard passes. Where an endpoint has one validation step only, its contract states the same as an if-and-only-if between validity and success. A method then applies the endpoint's effect. Its `ensures` tie the new tables to the old ones through that function. On a refusal, nothing changes. On success:
  - the visitor-code endpoints and complaint `store` and `update` change exactly one row (`store` appends it) and append exactly one activity entry;
  - complaint `reply` appends one reply, may move that complaint's status, and appends one activity entry;
  - `register` appends a user, plus an estate for an admin who sends one and a vendor profile for a vendor, and mails the code; its answer is nevertheless a 500 (see below), the one refusal that comes after writes;
  - the other auth endpoints change one user row and write no activity.

What the model shows about the code as it is written:

- **Check-in and cancel ignore `status`.** `verify`, `verifyByCode` and `cancel` never read `status`. So an unexpired, never-verified `cancelled` code can be checked in again and becomes `active`. `cancel` also accepts completed and expired codes when they were never verified.
- **Time-in does not verify.** `setTimeIn` leaves `verified_at` untouched, so a code timed in by hand can still be checked in later.
- **Two expiry boundaries.** `isExpired()` is strict (`expires_at < now`). The `expired` scope and the sweep use `<=`. So at the exact expiry instant a code is in the expired scope and is swept, yet the check-in guards still accept it. Announcements have the same split between `isExpired()` and the `active` scope.
- **Tokens survive use.** The user model's `$fillable` list leaves out `password_reset_token`, `password_reset_expires_at`, `password_setup_token`, `password_setup_token_expires_at`, `estate_id`, `address` and `company_name`.
  - `resetPassword` and `setPassword` send `null` for the token columns through `update()`, and those entries are dropped. A reset or setup token therefore stays valid after a successful use, until its expiry passes, and can be replayed.
  - `User::create` in `register` likewise drops `estate_id`. A registered user never gets an estate, even when an admin creates one in the same request.
  - `forgotPassword` assigns attributes one by one and saves, so its token is stored.
- **Null expiry.** The model follows Carbon 2: when an expiry column is null, Carbon 2 reads the `null` argument of `now()->greaterThan(null)` as a fresh current instant, which is not before `now`, so the expiry guard passes.
- **Registration answers 500.** `register` builds its answer with `$user->load('estate')` (app/Http/Controllers/Api/AuthController.php:114), but the user model defines no `estate` relation (app/Models/User.php:60-79). The load throws, nothing catches it and no transaction wraps the writes. So every valid registration is answered with 500, after the estate, the user and the vendor profile are stored and the verification mail is sent.
- **Verification codes are single-use.** The verification token is fillable, so a successful email verification consumes the code. The code's expiry column is left as it was.
- **Collision with a deleted code.** The code-generation loop checks only live rows, while the unique index on `code` also covers soft-deleted ones. A fresh code that equals a soft-deleted row's code reaches the insert and fails there, and the model answers 500.

The lifecycle is sometimes described as a state machine:
`complete`, `expired` and `cancelled` are terminal, and `verified_at` is set exactly once, on the move from pending to active.
The code enforces neither, and the model follows the code.
`StatusIgnoredByCheckInAndCancel`, `CancelledCodeReactivates`, `CancelGuard` and `TimeInKeepsVerification` state what it does instead.

## Model

| member | source | states |
|---|---|---|
| Common.Upper | app/Http/Controllers/Api/VisitorCodeController.php:58 | `strtoupper` keeps the length and maps each character through the ASCII upper-case map, leaving every other character alone |
| Common.UpperIdempotent | app/Http/Controllers/Api/VisitorCodeController.php:255 | upper-casing an already upper-cased input changes nothing, so an issued code is its own lookup key |
| Common.UpperOfRandomToken | app/Http/Controllers/Api/VisitorCodeController.php:58 | `strtoupper(Str::random(6))` is six characters, each an upper-case ASCII letter or a digit |
| Common.FirstIndex | app/Http/Controllers/Api/VisitorCodeController.php:255 | `->first()` returns the earliest matching row, every row before it fails the condition, and it returns nothing exactly when no row matches |
| Common.FirstIndexRespectsAgreement | app/Http/Controllers/Api/AuthController.php:198-200 | two tables on which the `where` condition agrees row by row give the same `first()` |
| Common.CountIsFilterLength | app/Http/Controllers/Api/ComplaintController.php:240-253 | a `where(...)->count()` equals the number of rows the same `where(...)->get()` returns |
| MaintainerMiddleware.Handle | app/Http/Middleware/MaintainerMiddleware.php:16-33 | no user gives exactly 401; a user who is neither admin nor maintainer gives exactly 403; otherwise the answer is the next handler's response, unchanged |
| MaintainerMiddleware.AuthenticationBeforeRole | app/Http/Middleware/MaintainerMiddleware.php:18-30 | without a user the answer is 401 whatever the role check would say; admins and maintainers reach the next handler; the other four user types get 403 |
| VisitorCodes.IsExpired | app/Models/VisitorCode.php:52-55 | `isExpired()` holds exactly when `expires_at` is strictly before `now` |
| VisitorCodes.IsVerified | app/Models/VisitorCode.php:57-60 | `isVerified()` holds exactly when `verified_at` is set |
| VisitorCodes.ActiveScope | app/Models/VisitorCode.php:62-66 | the scope selects exactly the live rows with status `active` and `expires_at > now` |
| VisitorCodes.ExpiredScope | app/Models/VisitorCode.php:68-71 | the scope selects exactly the live rows with `expires_at <= now`, whatever their status |
| VisitorCodes.ScopesDisjoint | app/Models/VisitorCode.php:62-71 | no row is in both scopes, at any clock value |
| VisitorCodes.ExpiredImpliesExpiredScope | app/Models/VisitorCode.php:52-71 | a live code with `isExpired()` is in the expired scope; the converse fails exactly when `expires_at == now` |
| VisitorCodes.ExpiryInstant | app/Models/VisitorCode.php:52-71 | at `expires_at == now` a live code is in the expired scope and out of the active one, yet `isExpired()` is false |
| VisitorCodeController.VisitorCodeTable.GenerateCode | app/Http/Controllers/Api/VisitorCodeController.php:57-59 | the loop stops at the first random draw whose upper-cased form no live row carries; that code is six upper-case letters or digits |
| VisitorCodeController.FreshDrawExists | app/Http/Controllers/Api/VisitorCodeController.php:57-59 | a random source that eventually yields an unused code gives the loop a stopping draw, an upper-case six-character code no live row carries |
| VisitorCodeController.VisitorCodeTable.Store | app/Http/Controllers/Api/VisitorCodeController.php:37-92 | the answer is given by `StoreRefusal` on the code the loop settles on: invalid input gives 422 and a fresh code that a soft-deleted row still carries gives 500, both with no change; every other request succeeds with 201: exactly one `pending`, unverified row is appended, its code differs from every existing code, and one `visitor_code_created` entry is logged; codes stay pairwise distinct |
| VisitorCodeController.VisitorCodeTable.Verify | app/Http/Controllers/Api/VisitorCodeController.php:110-162 | the guards run in order (staff 403, found 404, expired 400, already verified 400) and a refusal changes nothing; success sets `verified_by`, `verified_at`, `time_in` and status `active` on that row only, and logs one `visitor_code_verified` entry |
| VisitorCodeController.VisitorCodeTable.VerifyByCode | app/Http/Controllers/Api/VisitorCodeController.php:234-306 | staff 403, input not of length 6 422, no live row with the upper-cased code 404, then the same guards and check-in as `verify` on the row found, logging `visitor_code_verified_by_code` |
| VisitorCodeController.VisitorCodeTable.Cancel | app/Http/Controllers/Api/VisitorCodeController.php:167-193 | another owner's code, or a missing one, gives 404 and a verified code 400, with no change; otherwise only `status` becomes `cancelled`, and one `visitor_code_cancelled` entry is logged |
| VisitorCodeController.VisitorCodeTable.SetTimeIn | app/Http/Controllers/Api/VisitorCodeController.php:359-402 | staff 403, found 404, status not exactly `pending` 400; success sets only `time_in` and status `active`, and logs `visitor_code_time_in` |
| VisitorCodeController.VisitorCodeTable.SetTimeOut | app/Http/Controllers/Api/VisitorCodeController.php:311-354 | staff 403, found 404, status not exactly `active` 400; success sets only `time_out` and status `complete`, and logs `visitor_code_time_out` |
| VisitorCodeController.CheckInOnce | app/Http/Controllers/Api/VisitorCodeController.php:129-141 | after a check-in the row is verified by the actor, `active`, timed in, keeps its code and expiry, and both check-in endpoints refuse it at every later instant |
| VisitorCodeController.ExpiryPrecedence | app/Http/Controllers/Api/VisitorCodeController.php:122-134 | an expired code is refused as expired even when it is also verified |
| VisitorCodeController.StatusIgnoredByCheckInAndCancel | app/Http/Controllers/Api/VisitorCodeController.php:113-178 | changing the status of any row changes none of the answers of `verify`, `verifyByCode` or `cancel` |
| VisitorCodeController.CancelledCodeReactivates | app/Http/Controllers/Api/VisitorCodeController.php:120-141 | an unexpired, never-verified `cancelled` code passes every guard of `verify` and becomes `active` |
| VisitorCodeController.LookupFindsCode | app/Http/Controllers/Api/VisitorCodeController.php:255 | any input whose upper-cased form is a live row's code, a lower-case entry included, finds exactly that row |
| VisitorCodeController.VerifyByCodeAgreesWithVerify | app/Http/Controllers/Api/VisitorCodeController.php:255-285 | for a live row, `verifyByCode` with a six-character input naming its code answers exactly as `verify` with its id |
| VisitorCodeController.CancelGuard | app/Http/Controllers/Api/VisitorCodeController.php:169-178 | another owner's code is not found; every unverified code of the caller can be cancelled, whatever its status |
| VisitorCodeController.TimeInKeepsVerification | app/Http/Controllers/Api/VisitorCodeController.php:377-380 | a manual time-in leaves `verified_at` and `verified_by` as they were, so check-in answers it exactly as before |
| ExpireVisitorCodes.Swept | app/Console/Commands/ExpireVisitorCodes.php:29-31 | the table after the update has the same length, and each row is the old row with the sweep applied |
| ExpireVisitorCodes.Handle | app/Console/Commands/ExpireVisitorCodes.php:27-36 | the loop leaves exactly the swept table, returns the number of rows its query selects and exit code 0, keeps codes distinct and does not touch the log |
| ExpireVisitorCodes.SweptExactly | app/Console/Commands/ExpireVisitorCodes.php:29-31 | a row becomes `expired` iff it is live, `pending` or `active`, and due (`expires_at <= now`); every other row is unchanged; no field but `status` ever changes |
| ExpireVisitorCodes.CountIsChanged | app/Console/Commands/ExpireVisitorCodes.php:29-33 | the reported count equals the number of rows that differ after the update |
| ExpireVisitorCodes.SweepIdempotent | app/Console/Commands/ExpireVisitorCodes.php:29-31 | a second run with the same clock leaves the table as it is and reports 0 |
| ExpireVisitorCodes.SweptKeepsCodes | app/Console/Commands/ExpireVisitorCodes.php:29-31 | the update keeps the codes pairwise distinct |
| ExpireVisitorCodes.StaleIsInExpiredScope | app/Console/Commands/ExpireVisitorCodes.php:29-30 | every row the command expires was in the expired scope and not in the active one |
| Announcements.InActiveScope | app/Models/Announcement.php:40-47 | the `active` scope: live, `is_active`, and no expiry or one strictly after `now` |
| Announcements.InPublishedScope | app/Models/Announcement.php:49-55 | the `published` scope: live, and no publication date or one not after `now` |
| Announcements.IsExpired | app/Models/Announcement.php:57-60 | `isExpired()`: an expiry is set and is strictly before `now` |
| Announcements.IsPublished | app/Models/Announcement.php:62-65 | `isPublished()`: no publication date, or one not after `now` |
| Announcements.Visible | app/Models/Announcement.php:40-55 | `active()->published()` returns rows of the table, each in both scopes (live, active, not yet at its expiry, published), holds a row of the table exactly when that row is in both scopes, keeps each such row as many times as the table holds it, and holds nothing else |
| Announcements.VisibleIsUnexpiredPublished | app/Http/Controllers/Api/AnnouncementController.php:29-30 | every announcement residents are shown is live, active, published by `isPublished()` and not expired by `isExpired()` |
| Announcements.PublishedAgrees | app/Models/Announcement.php:49-65 | `isPublished()` and the `published` scope agree on every live row at every instant |
| Announcements.ExpiryRule | app/Models/Announcement.php:57-60 | a null expiry never expires; otherwise `isExpired()` holds iff `now` is strictly after the expiry |
| Announcements.ActiveIsNotExpired | app/Models/Announcement.php:40-60 | nothing in the active scope is `isExpired()` |
| Announcements.ExpiryInstant | app/Models/Announcement.php:45-59 | at `expires_at == now` a row is not `isExpired()` yet is out of the active scope |
| ComplaintController.ParseKind | app/Http/Controllers/Api/ComplaintController.php:55 | exactly `complaint` and `suggestion` are accepted, each read back as the type of that name |
| ComplaintController.ParseSeverity | app/Http/Controllers/Api/ComplaintController.php:57 | exactly `low`, `medium`, `high` and `critical` are accepted, each read back as that severity |
| ComplaintController.ParseStatus | app/Http/Controllers/Api/ComplaintController.php:131 | exactly the five status names are accepted, each read back as that status |
| ComplaintController.NamesParse | database/migrations/2025_10_24_000005_update_complaints_status_enum.php:16 | every type, severity and status value is accepted under its own column text |
| ComplaintController.ApplyUpdate | app/Http/Controllers/Api/ComplaintController.php:145-153 | only `status`, `admin_notes`, `resolved_at` and `resolved_by` can change; a supplied status and a supplied note are written and others kept; choosing `resolved` stamps `now` and the actor; any other choice leaves both stamps as they were |
| ComplaintController.AnyStatusToAnyStatus | app/Http/Controllers/Api/ComplaintController.php:131-153 | from every status, an update can set every status: there is no transition guard |
| ComplaintController.AfterReply | app/Http/Controllers/Api/ComplaintController.php:343-345 | a reply moves `pending` to `in_progress`, leaves any other status alone, and changes nothing but `status` |
| ComplaintController.SortNewestFirst | app/Http/Controllers/Api/ComplaintController.php:41 | `orderBy('created_at', 'desc')` returns a permutation of its input that is ordered newest first |
| ComplaintController.Index | app/Http/Controllers/Api/ComplaintController.php:17-47 | the result is ordered newest first; it holds only the caller's live complaints that pass every supplied filter, it holds every such complaint, and it has the multiplicities the query selects |
| ComplaintController.StatisticsFor | app/Http/Controllers/Api/ComplaintController.php:229-261 | a non-admin gets 403, and an admin gets 200 with the counters, each as an if-and-only-if |
| ComplaintController.Statistics | app/Http/Controllers/Api/ComplaintController.php:238-255 | `total` counts the live complaints, and each other counter the live complaints with one status, type or severity |
| ComplaintController.StatisticsPartition | app/Http/Controllers/Api/ComplaintController.php:238-255 | the five status counters, the two type counters and the four severity counters each add up to `total` |
| ComplaintController.StatusCountIsSelection | app/Http/Controllers/Api/ComplaintController.php:240-244 | each status counter is the number of live complaints with that status |
| ComplaintController.CategoriesDistinct | app/Http/Controllers/Api/ComplaintController.php:266-282 | there are thirteen categories, all different, and the last is `Other` |
| ComplaintController.ComplaintDesk.Store | app/Http/Controllers/Api/ComplaintController.php:52-100 | invalid input gives exactly 422 with no change, and every valid request succeeds; one `pending` complaint with no notes or resolution is appended with the request's fields, and `complaint_created` is logged |
| ComplaintController.ComplaintDesk.Update | app/Http/Controllers/Api/ComplaintController.php:120-173 | the first failing guard of `UpdateRefusal` (non-admin 403, invalid input 422, missing complaint 404) is the answer, with no change; when none fails, that complaint becomes its update, `complaint_updated` is logged and the answer is 200 |
| ComplaintController.ComplaintDesk.Reply | app/Http/Controllers/Api/ComplaintController.php:313-364 | the first failing guard of `ReplyRefusal` (non-admin 403, no message or one over 2000 characters 422, missing complaint 404) is the answer, with no change; when none fails, exactly one reply is added, the complaint advances as after a reply, `complaint_replied` is logged and the answer is 201 |
| AuthController.Digits6RoundTrip | app/Http/Controllers/Api/AuthController.php:92-109 | the text of a code from `random_int(100000, 999999)` is six digits, which passes `digits:6`, and reading it back gives the code |
| AuthController.DecimalRoundTrip | app/Http/Controllers/Api/AuthController.php:92-93 | writing a number in `width` decimal digits and reading them back gives the number, when it fits |
| AuthController.Digits6Injective | app/Http/Controllers/Api/AuthController.php:232-234 | two different codes are never stored or mailed as the same text |
| AuthController.ParseUsertype | app/Http/Controllers/Api/AuthController.php:33 | exactly the six listed user types are accepted, and only `admin` reads back as admin |
| AuthController.MassAssignIsFilteredForceFill | app/Models/User.php:20-34 | `fill()` is the same as assigning, in order, only the entries whose column is fillable |
| AuthController.MassAssign | app/Models/User.php:20-34 | `fill()` / `create()` / `update()` apply an attribute array left to right, writing only the columns listed in `$fillable` |
| AuthController.PastExpiry | app/Http/Controllers/Api/AuthController.php:206 | `now()->greaterThan($expiresAt)`: a set expiry strictly before `now`, and never a null one |
| AuthController.MassAssignKeepsGuarded | app/Models/User.php:20-34 | whatever an attribute array says, mass assignment leaves `address`, `company_name`, `estate_id` and the reset and setup token columns unchanged |
| AuthController.MassAssignAppend | app/Models/User.php:20-34 | an attribute array is applied entry by entry, left to right |
| AuthController.VerifiedPatchEffect | app/Http/Controllers/Api/AuthController.php:242-245 | a successful verification clears the code, stamps `email_verified_at`, and changes nothing else, the code's expiry included |
| AuthController.TokenPatchesOnlySetPassword | app/Http/Controllers/Api/AuthController.php:210-214 | the arrays of `resetPassword` and of `setPassword` (402-406) change only the password hash; the token and expiry columns they name are dropped |
| AuthController.RegisteredRecord | app/Http/Controllers/Api/AuthController.php:81-97 | the created user has the request's names, phone, email and type, the new hash, the mailed code with expiry `now` + 600 and no verification, and no estate, address or company name |
| AuthController.InlineEstate | app/Http/Controllers/Api/AuthController.php:60-79 | exactly an admin who sends an `estate` object gets one new estate, active, named as sent, with the sent code or else `slug(name)-random` |
| AuthController.VendorFor | app/Http/Controllers/Api/AuthController.php:99-106 | exactly a new vendor gets one profile, holding the user's id and the request's company name and address |
| AuthController.DistinctAfterInsert | app/Http/Controllers/Api/AuthController.php:30 | adding a user whose email passes `unique:users` keeps the emails of the table pairwise distinct |
| AuthController.UserDirectory.Register | app/Http/Controllers/Api/AuthController.php:23-116 | exactly the invalid requests give 422 with no change; every valid one is answered with 500 from the failing `load('estate')`, after its writes: an admin's inline estate is created as active, with `slug(name)-random` as its code when none was given; the user is created by mass assignment; vendors get a profile; the code is mailed; emails stay distinct |
| AuthController.UserDirectory.VerifyEmailWithCode | app/Http/Controllers/Api/AuthController.php:220-248 | the refusal is validation 400, then one 400 for both an unknown email/code pair and a code past its expiry, with no change; success applies the verification to the first matching user only |
| AuthController.UserDirectory.ResendVerificationCode | app/Http/Controllers/Api/AuthController.php:251-282 | the answer follows `EmailRefusal`: invalid email 400, unknown email 404, both with no change; every known email succeeds with 200, the first user with that email gets the new code and expiry `now` + 600, nothing else changes, and the code is mailed |
| AuthController.UserDirectory.ForgotPassword | app/Http/Controllers/Api/AuthController.php:154-182 | the answer follows `EmailRefusal`: invalid email 400, unknown email 404, both with nothing stored; every known email succeeds with 200, the reset token and expiry `now` + 600 are stored, bypassing the fillable filter, and mailed |
| AuthController.UserDirectory.ResetPassword | app/Http/Controllers/Api/AuthController.php:186-217 | validation 400, then an unmatched email/token pair 400, then a passed expiry 400, none changing anything; success changes only the matched user's password hash |
| AuthController.UserDirectory.SetPassword | app/Http/Controllers/Api/AuthController.php:378-409 | the same guard order as reset over the setup token; success changes only the matched user's password hash |
| AuthController.ResentCodeVerifies | app/Http/Controllers/Api/AuthController.php:270-274 | after a resend, the mailed code verifies that same user at every instant up to and including ten minutes later |
| AuthController.VerificationCodeSingleUse | app/Http/Controllers/Api/AuthController.php:242-245 | with distinct emails, after a successful verification the same email and code are refused at every later instant |
| AuthController.VerificationExpiryInstant | app/Http/Controllers/Api/AuthController.php:237 | the verification guard accepts at exactly the expiry instant and refuses one second later |
| AuthController.IssuedResetTokenWorks | app/Http/Controllers/Api/AuthController.php:171-176 | after `forgotPassword`, a valid reset request with the mailed token passes all guards for ten minutes |
| AuthController.ResetTokenReusable | app/Http/Controllers/Api/AuthController.php:210-214 | after a successful reset, the same email and token still match the same user and reset again for as long as the expiry allows |
| AuthController.SetupTokenReusable | app/Http/Controllers/Api/AuthController.php:402-406 | after a successful setup, the same email and token still match and set the password again for as long as the expiry allows |
| AuthController.NullExpiryTokenNeverExpires | app/Http/Controllers/Api/AuthController.php:206 | a valid reset or setup request whose token matches a user with a null expiry column passes every guard, at every instant (setup: line 398) |

## Left out

- HTTP and JSON plumbing is not modelled: response bodies, messages, eager loading (`load`, `with`) and `paginate(15)`. The one eager load that fails, `register`'s `load('estate')`, is modelled as its 500 answer. `index` returns every selected row at once.
- Validation is modelled as predicates over optional fields. Laravel's trimming and empty-string-to-null middleware is not modelled, so a present empty string counts as present.
- The `email` rule is approximated as "some text, an `@`, some text".
- The `image` rule on `avatar`, `date` parsing of `expires_at` and the `array` rule on `estate` are not modelled.
- Randomness is a parameter:
  - `Str::random(6)` draws for visitor codes are a sequence, which must eventually contain an unused code. The unbounded do-while loop cannot be shown to terminate otherwise.
  - `random_int` is a `VerificationCode` argument.
  - `Str::uuid()` is a string argument.
  - The estate-code suffix is a `RandomToken` argument.
- `Hash::make` is a parameter: each method receives the hash it stores. `Hash::check`, `Auth::attempt`, Sanctum tokens, `login`, `logout`, `changePassword` and `deleteUser` are not part of this model.
- Mail and notifications are an outbox of notices. Their delivery and their templates are not modelled.
- Avatar file storage is not modelled.
- `Str::slug` is a function parameter; its text transformation is not modelled.
- The `created_at` and `updated_at` timestamps are not modelled, except `created_at` of complaints, which a complaint gets from the clock at `store`.
- The metadata and description text of activity entries are not modelled. Each entry keeps its user, action, related type and related id.
- Concurrency is not modelled. There is no locking: two requests could draw the same code between its check and its insert. Each operation runs alone.
- The `admin` middleware placed before the time-in and time-out routes (routes/api.php:63) is not shown in the source. The model keeps only the controllers' own staff checks.
- Equal `created_at` values may come back from the database in any order. `SortNewestFirst` fixes one order, and `Index` promises only the newest-first ordering and the multiset.
- The show, admin index and admin show endpoints of both controllers are read-only CRUD and are left out. So is `whereDate` date truncation.
- The console command's `info` output line is not modelled; `Handle` returns the count it prints.
- `Vendor` and `Estate` creation: unique-index failures on a generated estate code are not modelled, because the estates migration is not part of this model. `Vendor`'s own fillable list is not part of this model either, so the profile stores the three values the controller passes.
- The user model is not soft-deleted, so the user table has no `trashed` flag.
- Visitor-code `estate_id` is not modelled: the controller never sets it.
- EmailLookup, VerificationLookup, ResetLookup, SetupLookup, EmailTaken, PhoneTaken, CodeLookup and Matches compare strings exactly. The tables live in MySQL, whose usual collation compares text without regard to case, so the database may match an email, a reset or setup token, a visitor code or an index filter that differs from the stored text in case only. That case folding is not modelled.
- CategoriesDistinct states facts that are visible in the constant `Categories` itself. It records the shape of the `categories` answer and carries no proof.
- The clock has whole seconds. The source compares a `now()` that carries microseconds with columns stored to the second, so "accepted at the exact expiry instant" (`VisitorCodes.ExpiryInstant`, `Announcements.ExpiryInstant`, `AuthController.VerificationExpiryInstant`) holds in the source only at the instant whose fraction is zero, where the model grants the whole second.
- PastExpiry and NullExpiryTokenNeverExpires follow Carbon 2. Under Carbon 3, `greaterThan(null)` raises a type error, so a null expiry column would answer 500 instead of passing. The Carbon version is not fixed by the files modelled, and `forgotPassword` always writes both reset columns.
