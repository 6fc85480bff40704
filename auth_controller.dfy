/** The token lifecycle of the authentication controller: registration with
    its six-digit email code, email verification, resending the code, and the
    reset and setup tokens that replace a password.

    Every `$user->update([...])` and `User::create([...])` goes through mass
    assignment, which keeps only the attributes the user model lists as
    fillable. The reset and setup token columns, `estate_id`, `address` and
    `company_name` are not among them, so the writes to them are dropped: a
    reset or setup token is not cleared by a successful use, and a newly
    registered user has no estate. `forgotPassword` assigns the attributes
    one by one and saves, which is not filtered. */
module AuthController {
  import opened Common

  /** `random_int(100000, 999999)`. */
  type VerificationCode = n: nat | 100000 <= n <= 999999 witness 100000

  /** Ten minutes, in seconds (`now()->addMinutes(10)`). */
  const TokenLifetime := 600

  function DigitChar(d: nat): (c: char)
    requires d < 10
    ensures IsAsciiDigit(c)
  {
    ('0' as int + d) as char
  }

  function Pow10(width: nat): nat
  {
    if width == 0 then 1 else 10 * Pow10(width - 1)
  }

  /** The last `width` decimal digits of `n`, most significant first. */
  function Decimal(n: nat, width: nat): (s: string)
    ensures |s| == width && forall i :: 0 <= i < |s| ==> IsAsciiDigit(s[i])
  {
    if width == 0 then [] else Decimal(n / 10, width - 1) + [DigitChar(n % 10)]
  }

  /** The rule `digits:6`: exactly six ASCII digits. */
  predicate IsSixDigits(s: string)
  {
    |s| == 6 && forall i :: 0 <= i < |s| ==> IsAsciiDigit(s[i])
  }

  /** The decimal text of a six-digit code, as it is mailed and stored. */
  function Digits6(n: VerificationCode): (s: string)
    ensures IsSixDigits(s)
  {
    Decimal(n, 6)
  }

  /** The number a string of digits denotes. */
  function DigitsValue(s: string): nat
    requires forall i :: 0 <= i < |s| ==> IsAsciiDigit(s[i])
  {
    if s == [] then 0
    else
      var d := s[|s| - 1];
      assert IsAsciiDigit(d);
      DigitsValue(s[..|s| - 1]) * 10 + (d as int - '0' as int)
  }

  /** Reading back the digits of a number that fits in `width` digits gives the number. */
  lemma {:induction false} DecimalRoundTrip(n: nat, width: nat)
    requires n < Pow10(width)
    ensures DigitsValue(Decimal(n, width)) == n
  {
    if width > 0 {
      DecimalRoundTrip(n / 10, width - 1);
      var s := Decimal(n, width);
      assert s[..|s| - 1] == Decimal(n / 10, width - 1);
    }
  }

  /** The mailed text of a code passes `digits:6` and denotes the code itself. */
  lemma Digits6RoundTrip(n: VerificationCode)
    ensures IsSixDigits(Digits6(n))
    ensures DigitsValue(Digits6(n)) == n
  {
    assert Pow10(6) == 1000000;
    DecimalRoundTrip(n, 6);
  }

  /** Two different codes are never mailed as the same text. */
  lemma Digits6Injective(n: VerificationCode, m: VerificationCode)
    requires Digits6(n) == Digits6(m)
    ensures n == m
  {
    Digits6RoundTrip(n);
    Digits6RoundTrip(m);
  }

  /** The rule `email`, approximated as some text, an `@`, and some text. */
  predicate IsEmail(s: string)
  {
    exists i :: 0 < i < |s| - 1 && s[i] == '@'
  }

  /** The rule `in:user,vendor,admin,installer,resident,maintainer`. */
  function ParseUsertype(s: string): (r: Option<Usertype>)
    ensures r.Some? <==> s in ["user", "vendor", "admin", "installer", "resident", "maintainer"]
    ensures r == Some(Admin) <==> s == "admin"
  {
    if s == "user" then Some(User)
    else if s == "vendor" then Some(Vendor)
    else if s == "admin" then Some(Admin)
    else if s == "installer" then Some(Installer)
    else if s == "resident" then Some(Resident)
    else if s == "maintainer" then Some(Maintainer)
    else None
  }

  /** One row of `users`; its id is its position in the table. `password` holds
      the hash. The verification token is kept as its decimal text. */
  datatype UserRecord = UserRecord(
    firstname: string,
    lastname: string,
    phone: string,
    email: string,
    usertype: Usertype,
    password: string,
    address: Option<string>,
    companyName: Option<string>,
    estateId: Option<nat>,
    verificationToken: Option<string>,
    verificationTokenExpiresAt: Option<Timestamp>,
    emailVerifiedAt: Option<Timestamp>,
    passwordResetToken: Option<string>,
    passwordResetExpiresAt: Option<Timestamp>,
    passwordSetupToken: Option<string>,
    passwordSetupTokenExpiresAt: Option<Timestamp>)

  /** The attributes of a model not yet saved: every column at its default. */
  const NewUser := UserRecord("", "", "", "", User, "", None, None, None, None, None, None, None, None, None, None)

  /** One `'column' => value` entry of an attribute array. */
  datatype Assignment =
    | SetFirstname(string)
    | SetLastname(string)
    | SetPhone(string)
    | SetEmail(string)
    | SetUsertype(Usertype)
    | SetPassword(string)
    | SetAddress(Option<string>)
    | SetCompanyName(Option<string>)
    | SetEstateId(Option<nat>)
    | SetVerificationToken(Option<string>)
    | SetVerificationTokenExpiresAt(Option<Timestamp>)
    | SetEmailVerifiedAt(Option<Timestamp>)
    | SetPasswordResetToken(Option<string>)
    | SetPasswordResetExpiresAt(Option<Timestamp>)
    | SetPasswordSetupToken(Option<string>)
    | SetPasswordSetupTokenExpiresAt(Option<Timestamp>)

  /** The user model's `$fillable` list, over the columns modelled here. */
  predicate Fillable(a: Assignment)
  {
    match a
    case SetAddress(_) => false
    case SetCompanyName(_) => false
    case SetEstateId(_) => false
    case SetPasswordResetToken(_) => false
    case SetPasswordResetExpiresAt(_) => false
    case SetPasswordSetupToken(_) => false
    case SetPasswordSetupTokenExpiresAt(_) => false
    case _ => true
  }

  /** Writing one attribute. */
  function Write(u: UserRecord, a: Assignment): UserRecord
  {
    match a
    case SetFirstname(s) => u.(firstname := s)
    case SetLastname(s) => u.(lastname := s)
    case SetPhone(s) => u.(phone := s)
    case SetEmail(s) => u.(email := s)
    case SetUsertype(t) => u.(usertype := t)
    case SetPassword(h) => u.(password := h)
    case SetAddress(s) => u.(address := s)
    case SetCompanyName(s) => u.(companyName := s)
    case SetEstateId(e) => u.(estateId := e)
    case SetVerificationToken(t) => u.(verificationToken := t)
    case SetVerificationTokenExpiresAt(t) => u.(verificationTokenExpiresAt := t)
    case SetEmailVerifiedAt(t) => u.(emailVerifiedAt := t)
    case SetPasswordResetToken(t) => u.(passwordResetToken := t)
    case SetPasswordResetExpiresAt(t) => u.(passwordResetExpiresAt := t)
    case SetPasswordSetupToken(t) => u.(passwordSetupToken := t)
    case SetPasswordSetupTokenExpiresAt(t) => u.(passwordSetupTokenExpiresAt := t)
  }

  /** Direct attribute assignment followed by `save()`: every entry is written. */
  function ForceFill(u: UserRecord, assignments: seq<Assignment>): UserRecord
    decreases |assignments|
  {
    if assignments == [] then u else ForceFill(Write(u, assignments[0]), assignments[1..])
  }

  /** One entry of `fill()`: written when fillable, silently dropped otherwise. */
  function Fill(u: UserRecord, a: Assignment): UserRecord
  {
    if Fillable(a) then Write(u, a) else u
  }

  /** `fill()` as `create` and `update` use it: entries that are not fillable are dropped. */
  function MassAssign(u: UserRecord, assignments: seq<Assignment>): UserRecord
    decreases |assignments|
  {
    if assignments == [] then u else MassAssign(Fill(u, assignments[0]), assignments[1..])
  }

  /** An attribute array is applied entry by entry, left to right. */
  lemma {:induction false} MassAssignAppend(u: UserRecord, s: seq<Assignment>, t: seq<Assignment>)
    ensures MassAssign(u, s + t) == MassAssign(MassAssign(u, s), t)
    decreases |s|
  {
    if s == [] {
      assert s + t == t;
    } else {
      assert (s + t)[1..] == s[1..] + t;
      MassAssignAppend(Fill(u, s[0]), s[1..], t);
    }
  }

  lemma MassAssignOne(u: UserRecord, a: Assignment)
    ensures MassAssign(u, [a]) == Fill(u, a)
  {
    assert [a][1..] == [];
  }

  lemma ForceFillPair(u: UserRecord, a: Assignment, b: Assignment)
    ensures ForceFill(u, [a, b]) == Write(Write(u, a), b)
  {
    assert [a, b][1..] == [b];
    assert ForceFill(u, [a, b]) == ForceFill(Write(u, a), [b]);
    assert [b][1..] == [];
    assert ForceFill(Write(u, a), [b]) == ForceFill(Write(Write(u, a), b), []);
  }

  lemma MassAssignPair(u: UserRecord, a: Assignment, b: Assignment)
    ensures MassAssign(u, [a, b]) == Fill(Fill(u, a), b)
  {
    assert [a, b] == [a] + [b];
    MassAssignAppend(u, [a], [b]);
    MassAssignOne(u, a);
    MassAssignOne(Fill(u, a), b);
  }

  lemma MassAssignTriple(u: UserRecord, a: Assignment, b: Assignment, c: Assignment)
    ensures MassAssign(u, [a, b, c]) == Fill(Fill(Fill(u, a), b), c)
  {
    assert [a, b, c] == [a, b] + [c];
    MassAssignAppend(u, [a, b], [c]);
    MassAssignPair(u, a, b);
    MassAssignOne(Fill(Fill(u, a), b), c);
  }

  /** The columns mass assignment cannot reach. */
  predicate SameGuarded(u: UserRecord, v: UserRecord)
  {
    && u.address == v.address
    && u.companyName == v.companyName
    && u.estateId == v.estateId
    && u.passwordResetToken == v.passwordResetToken
    && u.passwordResetExpiresAt == v.passwordResetExpiresAt
    && u.passwordSetupToken == v.passwordSetupToken
    && u.passwordSetupTokenExpiresAt == v.passwordSetupTokenExpiresAt
  }

  /** Mass assignment is direct assignment of the fillable entries only. */
  lemma {:induction false} MassAssignIsFilteredForceFill(u: UserRecord, assignments: seq<Assignment>)
    ensures MassAssign(u, assignments) == ForceFill(u, Filter(assignments, Fillable))
    decreases |assignments|
  {
    if assignments != [] {
      MassAssignIsFilteredForceFill(Fill(u, assignments[0]), assignments[1..]);
      if Fillable(assignments[0]) {
        var rest := Filter(assignments[1..], Fillable);
        assert ([assignments[0]] + rest)[1..] == rest;
      }
    }
  }

  /** Whatever an attribute array says, mass assignment leaves the guarded columns as they were. */
  lemma {:induction false} MassAssignKeepsGuarded(u: UserRecord, assignments: seq<Assignment>)
    ensures SameGuarded(MassAssign(u, assignments), u)
    decreases |assignments|
  {
    if assignments != [] {
      MassAssignKeepsGuarded(Fill(u, assignments[0]), assignments[1..]);
    }
  }

  /** Once expiry is set, `now()->greaterThan($expiresAt)`; a null expiry compares
      against the current instant and is never passed. */
  predicate PastExpiry(now: Timestamp, expiresAt: Option<Timestamp>)
  {
    expiresAt.Some? && now > expiresAt.value
  }

  /** `User::where('email', ...)->first()`. */
  function EmailLookup(users: seq<UserRecord>, email: string): Option<nat>
  {
    FirstIndex(users, (u: UserRecord) => u.email == email)
  }

  /** `User::where('email', ...)->where('verification_token', ...)->first()`. */
  function VerificationLookup(users: seq<UserRecord>, email: string, code: string): Option<nat>
  {
    FirstIndex(users, (u: UserRecord) => u.email == email && u.verificationToken == Some(code))
  }

  /** `User::where('email', ...)->where('password_reset_token', ...)->first()`. */
  function ResetLookup(users: seq<UserRecord>, email: string, token: string): Option<nat>
  {
    FirstIndex(users, (u: UserRecord) => u.email == email && u.passwordResetToken == Some(token))
  }

  /** `User::where('email', ...)->where('password_setup_token', ...)->first()`. */
  function SetupLookup(users: seq<UserRecord>, email: string, token: string): Option<nat>
  {
    FirstIndex(users, (u: UserRecord) => u.email == email && u.passwordSetupToken == Some(token))
  }

  /** The `unique:users` rule on `email`, as a table invariant. */
  predicate EmailsDistinct(users: seq<UserRecord>)
  {
    forall i, j :: 0 <= i < j < |users| ==> users[i].email != users[j].email
  }

  predicate EmailTaken(users: seq<UserRecord>, email: string)
  {
    exists i :: 0 <= i < |users| && users[i].email == email
  }

  /** Adding a user whose email is not taken keeps emails distinct, which is
      what the `unique:users` rule of `register` protects. */
  lemma DistinctAfterInsert(users: seq<UserRecord>, u: UserRecord)
    requires EmailsDistinct(users) && !EmailTaken(users, u.email)
    ensures EmailsDistinct(users + [u])
  {
    forall i, j | 0 <= i < j < |users + [u]|
      ensures (users + [u])[i].email != (users + [u])[j].email
    {
      if j == |users| {
        assert (users + [u])[i] == users[i];
      }
    }
  }

  predicate PhoneTaken(users: seq<UserRecord>, phone: string)
  {
    exists i :: 0 <= i < |users| && users[i].phone == phone
  }

  datatype Refusal =
    | ValidationFailed   // 422, the registration validator
    | BadInput           // 400, the validators of the token endpoints
    | UserNotFound       // 404
    | InvalidOrExpired   // 400, email verification
    | InvalidToken       // 400, no user with this email and token
    | TokenExpired       // 400, the token's expiry has passed
    | RelationMissing    // 500, eager loading a relation the model does not define
  {
    function Status(): int
    {
      match this
      case ValidationFailed => 422
      case UserNotFound => 404
      case RelationMissing => 500
      case _ => 400
    }
  }

  datatype Response<T> = Ok(status: int, data: T) | Refused(reason: Refusal)

  /** The `estate` object an admin may send to create an estate on the spot. */
  datatype EstateInput = EstateInput(
    name: Option<string>,
    code: Option<string>,
    address: Option<string>,
    phone: Option<string>,
    email: Option<string>,
    description: Option<string>)

  /** One row of `estates`; its id is its position in the table. */
  datatype Estate = Estate(
    name: string,
    code: string,
    address: Option<string>,
    phone: Option<string>,
    email: Option<string>,
    description: Option<string>,
    isActive: bool)

  /** One row of `vendors`. */
  datatype VendorProfile = VendorProfile(userId: nat, companyName: Option<string>, address: Option<string>)

  /** A notification handed to the mailer. */
  datatype Notice = VerificationMail(userId: nat, code: string) | ResetMail(userId: nat, token: string)

  datatype RegisterRequest = RegisterRequest(
    firstname: Option<string>,
    lastname: Option<string>,
    phone: Option<string>,
    email: Option<string>,
    password: Option<string>,
    passwordConfirmation: Option<string>,
    usertype: Option<string>,
    address: Option<string>,
    companyName: Option<string>,
    estate: Option<EstateInput>,
    estateId: Option<nat>)

  predicate EstateCodeTaken(estates: seq<Estate>, code: string)
  {
    exists i :: 0 <= i < |estates| && estates[i].code == code
  }

  /** `required|string|min:6|confirmed`. */
  predicate PasswordRule(password: Option<string>, confirmation: Option<string>)
  {
    Required(password) && |password.value| >= 6 && confirmation == password
  }

  /** The estate rules: an admin needs `estate` or `estate_id`, everyone else `estate_id`. */
  predicate EstateRulesHold(estates: seq<Estate>, req: RegisterRequest)
  {
    if req.usertype == Some("admin") then
      && (req.estate.Some? || req.estateId.Some?)
      && (req.estate.Some? ==>
            && RequiredMax(req.estate.value.name, 255)
            && NullableMax(req.estate.value.code, 50)
            && (req.estate.value.code.Some? ==> !EstateCodeTaken(estates, req.estate.value.code.value)))
      && (req.estateId.Some? ==> req.estateId.value < |estates|)
    else
      req.estateId.Some? && req.estateId.value < |estates|
  }

  predicate RegisterValid(users: seq<UserRecord>, estates: seq<Estate>, req: RegisterRequest)
  {
    && RequiredMax(req.firstname, 255)
    && RequiredMax(req.lastname, 255)
    && RequiredMax(req.phone, 20) && !PhoneTaken(users, req.phone.value)
    && RequiredMax(req.email, 255) && IsEmail(req.email.value) && !EmailTaken(users, req.email.value)
    && PasswordRule(req.password, req.passwordConfirmation)
    && req.usertype.Some? && ParseUsertype(req.usertype.value).Some?
    && NullableMax(req.address, 255)
    && NullableMax(req.companyName, 255)
    && EstateRulesHold(estates, req)
  }

  /** The optional entry of `$request->only([...])` for a key that may be absent. */
  function OptionalEntry(present: bool, a: Assignment): seq<Assignment>
  {
    if present then [a] else []
  }

  /** The keys of `$request->only([...])` that `register` always has after validation. */
  function IdentityData(req: RegisterRequest): seq<Assignment>
    requires req.firstname.Some? && req.lastname.Some? && req.phone.Some? && req.email.Some?
    requires req.usertype.Some? && ParseUsertype(req.usertype.value).Some?
  {
    [SetFirstname(req.firstname.value), SetLastname(req.lastname.value), SetPhone(req.phone.value),
     SetEmail(req.email.value), SetUsertype(ParseUsertype(req.usertype.value).value)]
  }

  /** The entries `register` adds itself: hash, estate and the verification code. */
  function CredentialData(passwordHash: string, estateId: Option<nat>, code: VerificationCode,
                          now: Timestamp): seq<Assignment>
  {
    [SetPassword(passwordHash), SetEstateId(estateId),
     SetVerificationToken(Some(Digits6(code))), SetVerificationTokenExpiresAt(Some(now + TokenLifetime))]
  }

  /** The `$data` array `register` hands to `User::create`. */
  function RegistrationData(req: RegisterRequest, passwordHash: string, estateId: Option<nat>,
                            code: VerificationCode, now: Timestamp): seq<Assignment>
    requires req.firstname.Some? && req.lastname.Some? && req.phone.Some? && req.email.Some?
    requires req.usertype.Some? && ParseUsertype(req.usertype.value).Some?
  {
    IdentityData(req)
    + OptionalEntry(req.address.Some?, SetAddress(req.address))
    + OptionalEntry(req.companyName.Some?, SetCompanyName(req.companyName))
    + CredentialData(passwordHash, estateId, code, now)
  }

  /** The estate `register` creates: only an admin who sends an `estate` object
      gets one, active, with `slug(name)-random` as its code when none is given. */
  function InlineEstate(req: RegisterRequest, slug: string -> string, suffix: RandomToken): (r: seq<Estate>)
    requires req.usertype == Some("admin") && req.estate.Some? ==> req.estate.value.name.Some?
    ensures |r| <= 1
    ensures r != [] <==> req.usertype == Some("admin") && req.estate.Some?
    ensures r != [] ==> r[0].name == req.estate.value.name.value && r[0].isActive
    ensures r != [] ==> r[0].code == (if req.estate.value.code.Some? then req.estate.value.code.value
                                      else slug(req.estate.value.name.value) + "-" + suffix)
  {
    if req.usertype == Some("admin") && req.estate.Some? then
      var e := req.estate.value;
      [Estate(e.name.value, if e.code.Some? then e.code.value else slug(e.name.value) + "-" + suffix,
              e.address, e.phone, e.email, e.description, true)]
    else []
  }

  /** The vendor profile `register` adds for a new user of type vendor. */
  function VendorFor(req: RegisterRequest, userId: nat): (r: seq<VendorProfile>)
    ensures r != [] <==> req.usertype == Some("vendor")
    ensures r != [] ==> r == [VendorProfile(userId, req.companyName, req.address)]
  {
    if req.usertype == Some("vendor") then [VendorProfile(userId, req.companyName, req.address)] else []
  }

  /** The body of the token endpoints; a key that is absent is `None`. The
      `token` field is the request key `code` in `resetPassword` and the key
      `token` in `setPassword`. */
  datatype TokenRequest = TokenRequest(
    email: Option<string>,
    token: Option<string>,
    password: Option<string>,
    passwordConfirmation: Option<string>)

  /** The guards of `resendVerificationCode` and `forgotPassword`: the email
      rules (400), then a user with that email (404). */
  function EmailRefusal(users: seq<UserRecord>, email: Option<string>): (r: Option<Refusal>)
    ensures r.None? ==> email.Some? && EmailLookup(users, email.value).Some?
  {
    if !(Required(email) && IsEmail(email.value)) then Some(BadInput)
    else if EmailLookup(users, email.value).None? then Some(UserNotFound)
    else None
  }

  /** `verifyEmailWithCode`'s guards: validation, then one 400 for an unknown
      email/code pair and for a code past its expiry. */
  function VerifyEmailRefusal(users: seq<UserRecord>, email: Option<string>, code: Option<string>, now: Timestamp): Option<Refusal>
  {
    if !(Required(email) && IsEmail(email.value) && code.Some? && IsSixDigits(code.value)) then Some(BadInput)
    else match VerificationLookup(users, email.value, code.value)
      case None => Some(InvalidOrExpired)
      case Some(id) => if PastExpiry(now, users[id].verificationTokenExpiresAt) then Some(InvalidOrExpired) else None
  }

  /** The attribute array of a successful email verification. */
  function VerifiedPatch(now: Timestamp): seq<Assignment>
  {
    [SetVerificationToken(None), SetEmailVerifiedAt(Some(now))]
  }

  /** A verification clears the code, stamps `email_verified_at`, and keeps the expiry. */
  lemma VerifiedPatchEffect(u: UserRecord, now: Timestamp)
    ensures MassAssign(u, VerifiedPatch(now)) == u.(verificationToken := None, emailVerifiedAt := Some(now))
  {
    MassAssignPair(u, SetVerificationToken(None), SetEmailVerifiedAt(Some(now)));
  }

  /** `resetPassword`'s guards in order: validation, the email/token pair, the expiry. */
  function ResetRefusal(users: seq<UserRecord>, req: TokenRequest, now: Timestamp): Option<Refusal>
  {
    if !(Required(req.email) && IsEmail(req.email.value) && Required(req.token)
         && PasswordRule(req.password, req.passwordConfirmation)) then Some(BadInput)
    else match ResetLookup(users, req.email.value, req.token.value)
      case None => Some(InvalidToken)
      case Some(id) => if PastExpiry(now, users[id].passwordResetExpiresAt) then Some(TokenExpired) else None
  }

  /** `setPassword`'s guards in order: validation, the email/token pair, the expiry. */
  function SetupRefusal(users: seq<UserRecord>, req: TokenRequest, now: Timestamp): Option<Refusal>
  {
    if !(Required(req.email) && IsEmail(req.email.value) && Required(req.token)
         && PasswordRule(req.password, req.passwordConfirmation)) then Some(BadInput)
    else match SetupLookup(users, req.email.value, req.token.value)
      case None => Some(InvalidToken)
      case Some(id) => if PastExpiry(now, users[id].passwordSetupTokenExpiresAt) then Some(TokenExpired) else None
  }

  /** The attribute array of a successful reset: new hash, token and expiry nulled. */
  function ResetPatch(passwordHash: string): seq<Assignment>
  {
    [SetPassword(passwordHash), SetPasswordResetToken(None), SetPasswordResetExpiresAt(None)]
  }

  /** The attribute array of a successful setup: new hash, token and expiry nulled. */
  function SetupPatch(passwordHash: string): seq<Assignment>
  {
    [SetPassword(passwordHash), SetPasswordSetupToken(None), SetPasswordSetupTokenExpiresAt(None)]
  }

  /** Only the password of those arrays survives the fillable filter. */
  lemma TokenPatchesOnlySetPassword(u: UserRecord, passwordHash: string)
    ensures MassAssign(u, ResetPatch(passwordHash)) == u.(password := passwordHash)
    ensures MassAssign(u, SetupPatch(passwordHash)) == u.(password := passwordHash)
  {
    MassAssignTriple(u, SetPassword(passwordHash), SetPasswordResetToken(None), SetPasswordResetExpiresAt(None));
    MassAssignTriple(u, SetPassword(passwordHash), SetPasswordSetupToken(None), SetPasswordSetupTokenExpiresAt(None));
  }

  /** The `users`, `estates` and `vendors` tables, and the mail handed to the mailer. */
  class UserDirectory {
    var users: seq<UserRecord>
    var estates: seq<Estate>
    var vendors: seq<VendorProfile>
    var outbox: seq<Notice>

    ghost predicate Valid()
      reads this
    {
      EmailsDistinct(users)
    }

    constructor ()
      ensures Valid()
      ensures users == [] && estates == [] && vendors == [] && outbox == []
    {
      users, estates, vendors, outbox := [], [], [], [];
    }

    /** `register`: validate (422); create the estate an admin sends, with
        `slug(name)-random` as its code when none is given; create the user by
        mass assignment with a fresh six-digit code valid for ten minutes; add
        a vendor profile for vendors; mail the code. The answer is then built
        with `$user->load('estate')`, but the user model defines no `estate`
        relation: the load throws, so every valid registration is answered
        with 500 after all of its writes and its mail have happened. */
    method Register(req: RegisterRequest, passwordHash: string, slug: string -> string,
                    suffix: RandomToken, code: VerificationCode, now: Timestamp)
      returns (resp: Response<()>)
      requires Valid()
      modifies this
      ensures Valid()
      ensures !RegisterValid(old(users), old(estates), req) <==> resp == Refused(ValidationFailed)
      ensures RegisterValid(old(users), old(estates), req) <==> resp == Refused(RelationMissing)
      ensures resp == Refused(ValidationFailed) ==>
        users == old(users) && estates == old(estates) && vendors == old(vendors) && outbox == old(outbox)
      ensures resp == Refused(RelationMissing) ==>
        && estates == old(estates) + InlineEstate(req, slug, suffix)
        && var estateId := if InlineEstate(req, slug, suffix) != [] then Some(|old(estates)|) else req.estateId;
        && users == old(users) + [MassAssign(NewUser, RegistrationData(req, passwordHash, estateId, code, now))]
        && vendors == old(vendors) + VendorFor(req, |old(users)|)
        && outbox == old(outbox) + [VerificationMail(|old(users)|, Digits6(code))]
    {
      if !RegisterValid(users, estates, req) {
        return Refused(ValidationFailed);
      }
      var estateId: Option<nat> := req.estateId;
      var created := InlineEstate(req, slug, suffix);
      if created != [] {
        estates := estates + created;
        estateId := Some(|estates| - 1);
      }
      var u := MassAssign(NewUser, RegistrationData(req, passwordHash, estateId, code, now));
      RegisteredRecord(req, passwordHash, estateId, code, now);
      DistinctAfterInsert(users, u);
      var profile := VendorFor(req, |users|);
      users := users + [u];
      vendors := vendors + profile;
      outbox := outbox + [VerificationMail(|users| - 1, Digits6(code))];
      resp := Refused(RelationMissing);
    }

    /** `verifyEmailWithCode`: on success clear the code and stamp `email_verified_at`. */
    method VerifyEmailWithCode(email: Option<string>, code: Option<string>, now: Timestamp)
      returns (resp: Response<()>)
      requires Valid()
      modifies this
      ensures Valid()
      ensures estates == old(estates) && vendors == old(vendors) && outbox == old(outbox)
      ensures var refusal := VerifyEmailRefusal(old(users), email, code, now);
        && (refusal.Some? ==> resp == Refused(refusal.value) && users == old(users))
        && (refusal.None? ==>
              var id := VerificationLookup(old(users), email.value, code.value).value;
              && resp == Ok(200, ())
              && users == old(users)[id := MassAssign(old(users)[id], VerifiedPatch(now))])
    {
      var refusal := VerifyEmailRefusal(users, email, code, now);
      if refusal.Some? {
        return Refused(refusal.value);
      }
      var id := VerificationLookup(users, email.value, code.value).value;
      VerifiedPatchEffect(users[id], now);
      users := users[id := MassAssign(users[id], VerifiedPatch(now))];
      resp := Ok(200, ());
    }

    /** `resendVerificationCode`: validation (400), unknown email (404); else a
        fresh code valid for ten minutes is stored and mailed. */
    method ResendVerificationCode(email: Option<string>, code: VerificationCode, now: Timestamp)
      returns (resp: Response<()>)
      requires Valid()
      modifies this
      ensures Valid()
      ensures estates == old(estates) && vendors == old(vendors)
      ensures EmailRefusal(old(users), email).Some? ==>
        resp == Refused(EmailRefusal(old(users), email).value) && users == old(users) && outbox == old(outbox)
      ensures EmailRefusal(old(users), email).None? ==>
        && email.Some?
        && var id := EmailLookup(old(users), email.value).value;
        && users == old(users)[id := old(users)[id].(verificationToken := Some(Digits6(code)),
                                                     verificationTokenExpiresAt := Some(now + TokenLifetime))]
        && outbox == old(outbox) + [VerificationMail(id, Digits6(code))]
        && resp == Ok(200, ())
    {
      if !(Required(email) && IsEmail(email.value)) {
        return Refused(BadInput);
      }
      var found := EmailLookup(users, email.value);
      if found.None? {
        return Refused(UserNotFound);
      }
      var id := found.value;
      var patch := [SetVerificationToken(Some(Digits6(code))), SetVerificationTokenExpiresAt(Some(now + TokenLifetime))];
      MassAssignPair(users[id], patch[0], patch[1]);
      users := users[id := MassAssign(users[id], patch)];
      outbox := outbox + [VerificationMail(id, Digits6(code))];
      resp := Ok(200, ());
    }

    /** `forgotPassword`: validation (400), unknown email (404); else the
        token and a ten-minute expiry are assigned directly and saved. */
    method ForgotPassword(email: Option<string>, token: string, now: Timestamp)
      returns (resp: Response<()>)
      requires Valid()
      modifies this
      ensures Valid()
      ensures estates == old(estates) && vendors == old(vendors)
      ensures EmailRefusal(old(users), email).Some? ==>
        resp == Refused(EmailRefusal(old(users), email).value) && users == old(users) && outbox == old(outbox)
      ensures EmailRefusal(old(users), email).None? ==>
        && email.Some?
        && var id := EmailLookup(old(users), email.value).value;
        && users == old(users)[id := old(users)[id].(passwordResetToken := Some(token),
                                                     passwordResetExpiresAt := Some(now + TokenLifetime))]
        && outbox == old(outbox) + [ResetMail(id, token)]
        && resp == Ok(200, ())
    {
      if !(Required(email) && IsEmail(email.value)) {
        return Refused(BadInput);
      }
      var found := EmailLookup(users, email.value);
      if found.None? {
        return Refused(UserNotFound);
      }
      var id := found.value;
      var patch := [SetPasswordResetToken(Some(token)), SetPasswordResetExpiresAt(Some(now + TokenLifetime))];
      ForceFillPair(users[id], patch[0], patch[1]);
      users := users[id := ForceFill(users[id], patch)];
      outbox := outbox + [ResetMail(id, token)];
      resp := Ok(200, ());
    }

    /** `resetPassword`: on success only the password hash changes. */
    method ResetPassword(req: TokenRequest, passwordHash: string, now: Timestamp)
      returns (resp: Response<()>)
      requires Valid()
      modifies this
      ensures Valid()
      ensures estates == old(estates) && vendors == old(vendors) && outbox == old(outbox)
      ensures var refusal := ResetRefusal(old(users), req, now);
        && (refusal.Some? ==> resp == Refused(refusal.value) && users == old(users))
        && (refusal.None? ==>
              var id := ResetLookup(old(users), req.email.value, req.token.value).value;
              && resp == Ok(200, ())
              && users == old(users)[id := MassAssign(old(users)[id], ResetPatch(passwordHash))]
              && users[id] == old(users)[id].(password := passwordHash))
    {
      var refusal := ResetRefusal(users, req, now);
      if refusal.Some? {
        return Refused(refusal.value);
      }
      var id := ResetLookup(users, req.email.value, req.token.value).value;
      TokenPatchesOnlySetPassword(users[id], passwordHash);
      users := users[id := MassAssign(users[id], ResetPatch(passwordHash))];
      resp := Ok(200, ());
    }

    /** `setPassword`: on success only the password hash changes. */
    method SetPassword(req: TokenRequest, passwordHash: string, now: Timestamp)
      returns (resp: Response<()>)
      requires Valid()
      modifies this
      ensures Valid()
      ensures estates == old(estates) && vendors == old(vendors) && outbox == old(outbox)
      ensures var refusal := SetupRefusal(old(users), req, now);
        && (refusal.Some? ==> resp == Refused(refusal.value) && users == old(users))
        && (refusal.None? ==>
              var id := SetupLookup(old(users), req.email.value, req.token.value).value;
              && resp == Ok(200, ())
              && users == old(users)[id := MassAssign(old(users)[id], SetupPatch(passwordHash))]
              && users[id] == old(users)[id].(password := passwordHash))
    {
      var refusal := SetupRefusal(users, req, now);
      if refusal.Some? {
        return Refused(refusal.value);
      }
      var id := SetupLookup(users, req.email.value, req.token.value).value;
      TokenPatchesOnlySetPassword(users[id], passwordHash);
      users := users[id := MassAssign(users[id], SetupPatch(passwordHash))];
      resp := Ok(200, ());
    }
  }

  lemma OptionalGuardedEntry(u: UserRecord, present: bool, a: Assignment)
    requires !Fillable(a)
    ensures MassAssign(u, OptionalEntry(present, a)) == u
  {
    if present {
      MassAssignOne(u, a);
    }
  }

  /** The user `register` creates: the request's names, phone, email and type,
      the new hash, the mailed code with a ten-minute expiry, and, because
      `estate_id`, `address` and `company_name` are not fillable, none of
      those, whatever the request or the new estate said. */
  lemma {:induction false} RegisteredRecord(req: RegisterRequest, passwordHash: string, estateId: Option<nat>,
                                            code: VerificationCode, now: Timestamp)
    requires req.firstname.Some? && req.lastname.Some? && req.phone.Some? && req.email.Some?
    requires req.usertype.Some? && ParseUsertype(req.usertype.value).Some?
    ensures MassAssign(NewUser, RegistrationData(req, passwordHash, estateId, code, now))
         == UserRecord(req.firstname.value, req.lastname.value, req.phone.value, req.email.value,
                       ParseUsertype(req.usertype.value).value, passwordHash, None, None, None,
                       Some(Digits6(code)), Some(now + TokenLifetime), None, None, None, None, None)
  {
    var id := IdentityData(req);
    var address := OptionalEntry(req.address.Some?, SetAddress(req.address));
    var company := OptionalEntry(req.companyName.Some?, SetCompanyName(req.companyName));
    var cred := CredentialData(passwordHash, estateId, code, now);
    MassAssignAppend(NewUser, id + address + company, cred);
    MassAssignAppend(NewUser, id + address, company);
    MassAssignAppend(NewUser, id, address);
    assert id == [id[0], id[1], id[2]] + [id[3], id[4]];
    MassAssignAppend(NewUser, [id[0], id[1], id[2]], [id[3], id[4]]);
    MassAssignTriple(NewUser, id[0], id[1], id[2]);
    var named := MassAssign(NewUser, [id[0], id[1], id[2]]);
    MassAssignPair(named, id[3], id[4]);
    var identified := MassAssign(NewUser, id);
    OptionalGuardedEntry(identified, req.address.Some?, SetAddress(req.address));
    OptionalGuardedEntry(identified, req.companyName.Some?, SetCompanyName(req.companyName));
    assert cred == [cred[0], cred[1]] + [cred[2], cred[3]];
    MassAssignAppend(identified, [cred[0], cred[1]], [cred[2], cred[3]]);
    MassAssignPair(identified, cred[0], cred[1]);
    MassAssignPair(MassAssign(identified, [cred[0], cred[1]]), cred[2], cred[3]);
  }

  /** A code mailed by `resendVerificationCode` verifies the account for ten
      minutes, up to and including the expiry instant. */
  lemma ResentCodeVerifies(users: seq<UserRecord>, email: string, code: VerificationCode,
                           sentAt: Timestamp, now: Timestamp)
    requires Required(Some(email)) && IsEmail(email) && EmailLookup(users, email).Some?
    requires now <= sentAt + TokenLifetime
    ensures var id := EmailLookup(users, email).value;
      var after := users[id := users[id].(verificationToken := Some(Digits6(code)),
                                          verificationTokenExpiresAt := Some(sentAt + TokenLifetime))];
      && VerificationLookup(after, email, Digits6(code)) == Some(id)
      && VerifyEmailRefusal(after, Some(email), Some(Digits6(code)), now).None?
  {
    var id := EmailLookup(users, email).value;
    var after := users[id := users[id].(verificationToken := Some(Digits6(code)),
                                        verificationTokenExpiresAt := Some(sentAt + TokenLifetime))];
    var found := VerificationLookup(after, email, Digits6(code));
    assert after[id].email == email && after[id].verificationToken == Some(Digits6(code));
    assert found.Some? && found.value <= id;
  }

  /** A verification code works once: after a success the same email and code are refused. */
  lemma VerificationCodeSingleUse(users: seq<UserRecord>, email: string, code: string, now: Timestamp, later: Timestamp)
    requires EmailsDistinct(users)
    requires VerifyEmailRefusal(users, Some(email), Some(code), now).None?
    ensures var id := VerificationLookup(users, email, code).value;
      var after := users[id := MassAssign(users[id], VerifiedPatch(now))];
      VerifyEmailRefusal(after, Some(email), Some(code), later) == Some(InvalidOrExpired)
  {
    var id := VerificationLookup(users, email, code).value;
    VerifiedPatchEffect(users[id], now);
    var after := users[id := MassAssign(users[id], VerifiedPatch(now))];
    forall j | 0 <= j < |after|
      ensures !(after[j].email == email && after[j].verificationToken == Some(code))
    {
      if j != id {
        assert users[j].email != users[id].email;
      }
    }
  }

  /** The verification guard accepts at the exact expiry instant and refuses a second later. */
  lemma VerificationExpiryInstant(users: seq<UserRecord>, email: string, code: string, id: nat)
    requires Required(Some(email)) && IsEmail(email) && IsSixDigits(code)
    requires VerificationLookup(users, email, code) == Some(id)
    requires users[id].verificationTokenExpiresAt.Some?
    ensures var e := users[id].verificationTokenExpiresAt.value;
      && VerifyEmailRefusal(users, Some(email), Some(code), e).None?
      && VerifyEmailRefusal(users, Some(email), Some(code), e + 1) == Some(InvalidOrExpired)
  {
  }

  /** After `forgotPassword` the mailed token resets the password for ten minutes. */
  lemma IssuedResetTokenWorks(users: seq<UserRecord>, req: TokenRequest, sentAt: Timestamp, now: Timestamp)
    requires Required(req.email) && IsEmail(req.email.value) && Required(req.token)
    requires PasswordRule(req.password, req.passwordConfirmation)
    requires EmailLookup(users, req.email.value).Some?
    requires now <= sentAt + TokenLifetime
    ensures var id := EmailLookup(users, req.email.value).value;
      var after := users[id := users[id].(passwordResetToken := req.token,
                                          passwordResetExpiresAt := Some(sentAt + TokenLifetime))];
      && ResetLookup(after, req.email.value, req.token.value) == Some(id)
      && ResetRefusal(after, req, now).None?
  {
    var email := req.email.value;
    var id := EmailLookup(users, email).value;
    var after := users[id := users[id].(passwordResetToken := req.token,
                                        passwordResetExpiresAt := Some(sentAt + TokenLifetime))];
    var found := ResetLookup(after, email, req.token.value);
    assert after[id].email == email && after[id].passwordResetToken == Some(req.token.value);
    assert found.Some? && found.value <= id;
  }

  /** A reset token is not consumed: after a successful reset the same email and
      token reset the password again for as long as the expiry allows. */
  lemma ResetTokenReusable(users: seq<UserRecord>, req: TokenRequest, now: Timestamp,
                           passwordHash: string, later: Timestamp)
    requires ResetRefusal(users, req, now).None?
    requires !PastExpiry(later, users[ResetLookup(users, req.email.value, req.token.value).value].passwordResetExpiresAt)
    ensures var id := ResetLookup(users, req.email.value, req.token.value).value;
      var after := users[id := MassAssign(users[id], ResetPatch(passwordHash))];
      && ResetLookup(after, req.email.value, req.token.value) == Some(id)
      && ResetRefusal(after, req, later).None?
  {
    var email, token := req.email.value, req.token.value;
    var id := ResetLookup(users, email, token).value;
    TokenPatchesOnlySetPassword(users[id], passwordHash);
    var after := users[id := MassAssign(users[id], ResetPatch(passwordHash))];
    FirstIndexRespectsAgreement(users, after,
      (u: UserRecord) => u.email == email && u.passwordResetToken == Some(token));
  }

  /** The same holds for the setup token of an admin-created account. */
  lemma SetupTokenReusable(users: seq<UserRecord>, req: TokenRequest, now: Timestamp,
                           passwordHash: string, later: Timestamp)
    requires SetupRefusal(users, req, now).None?
    requires !PastExpiry(later, users[SetupLookup(users, req.email.value, req.token.value).value].passwordSetupTokenExpiresAt)
    ensures var id := SetupLookup(users, req.email.value, req.token.value).value;
      var after := users[id := MassAssign(users[id], SetupPatch(passwordHash))];
      && SetupLookup(after, req.email.value, req.token.value) == Some(id)
      && SetupRefusal(after, req, later).None?
  {
    var email, token := req.email.value, req.token.value;
    var id := SetupLookup(users, email, token).value;
    TokenPatchesOnlySetPassword(users[id], passwordHash);
    var after := users[id := MassAssign(users[id], SetupPatch(passwordHash))];
    FirstIndexRespectsAgreement(users, after,
      (u: UserRecord) => u.email == email && u.passwordSetupToken == Some(token));
  }

  /** A token whose expiry column is null is accepted at every instant: the
      null expiry resolves to the current time, which is never after itself. */
  lemma NullExpiryTokenNeverExpires(users: seq<UserRecord>, req: TokenRequest, now: Timestamp)
    requires Required(req.email) && IsEmail(req.email.value) && Required(req.token)
    requires PasswordRule(req.password, req.passwordConfirmation)
    ensures ResetLookup(users, req.email.value, req.token.value).Some?
         && users[ResetLookup(users, req.email.value, req.token.value).value].passwordResetExpiresAt.None?
         ==> ResetRefusal(users, req, now).None?
    ensures SetupLookup(users, req.email.value, req.token.value).Some?
         && users[SetupLookup(users, req.email.value, req.token.value).value].passwordSetupTokenExpiresAt.None?
         ==> SetupRefusal(users, req, now).None?
  {
  }
}
