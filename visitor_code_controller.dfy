/** The visitor-code endpoints: a resident issues a code, staff check the
    visitor in (by id or by the code itself) and set time-in and time-out, and
    the owner may cancel. Every operation checks its guards in the order the
    controller does, answers the first one that fails without touching the
    table or the activity log; otherwise `store` appends one row and every
    other operation updates one row, and each appends one activity entry.

    As written, the check-in guards look only at the expiry and at
    `verified_at`, never at `status`; cancelling looks only at `verified_at`. */
module VisitorCodeController {
  import opened Common
  import opened VisitorCodes

  /** Why a request was refused; `Status()` is the HTTP status the controller answers. */
  datatype Refusal =
    | Unauthorized          // usertype is not admin or maintainer
    | NotFound              // `findOrFail` or `first()` found no live row
    | ValidationFailed      // the `Validator` rejected the input
    | CodeExpired           // `isExpired()`
    | AlreadyVerified       // `isVerified()`
    | CannotCancelVerified  // cancel after check-in
    | MustBeActive          // time-out on a code whose status is not active
    | MustBePending         // time-in on a code whose status is not pending
    | DuplicateCode         // the unique index on `code` rejected the insert
  {
    function Status(): int
    {
      match this
      case Unauthorized => 403
      case NotFound => 404
      case ValidationFailed => 422
      case DuplicateCode => 500
      case _ => 400
    }
  }

  datatype Response<T> = Ok(status: int, data: T) | Refused(reason: Refusal)

  const RelatedType := "App\\Models\\VisitorCode"

  /** The body of `POST /visitor-codes`; a missing key is `None`. */
  datatype StoreRequest = StoreRequest(
    visitorName: Option<string>,
    phoneNumber: Option<string>,
    destination: Option<string>,
    numberOfVisitors: Option<int>,
    expiresAt: Option<Timestamp>,
    additionalNotes: Option<string>)

  /** The validation rules of `store`. */
  predicate StoreRequestValid(req: StoreRequest, now: Timestamp)
  {
    && RequiredMax(req.visitorName, 255)
    && NullableMax(req.phoneNumber, 20)
    && RequiredMax(req.destination, 255)
    && req.numberOfVisitors.Some? && 1 <= req.numberOfVisitors.value <= 10
    && req.expiresAt.Some? && req.expiresAt.value > now
    && NullableMax(req.additionalNotes, 1000)
  }

  /** The row `store` creates for a validated request and a generated code. */
  function Issued(owner: nat, req: StoreRequest, code: string): VisitorCode
    requires req.visitorName.Some? && req.destination.Some?
    requires req.numberOfVisitors.Some? && req.expiresAt.Some?
  {
    VisitorCode(owner, req.visitorName.value, req.phoneNumber, req.destination.value,
                req.numberOfVisitors.value, code, req.expiresAt.value, req.additionalNotes,
                None, None, Pending, None, None, false)
  }

  /** Index of the first random draw whose upper-cased form no live row carries:
      the candidate on which the regeneration loop stops. */
  function FreshDraw(rows: seq<VisitorCode>, draws: seq<RandomToken>): (r: Option<nat>)
  {
    FirstIndex(draws, (d: RandomToken) => !LiveCodeExists(rows, Upper(d)))
  }

  /** The unique index on `code` covers every row, soft-deleted ones included. */
  predicate CodeTaken(rows: seq<VisitorCode>, code: string)
  {
    exists j :: 0 <= j < |rows| && rows[j].code == code
  }

  /** The first step of `store` that fails for the code the loop settled on:
      validation, then the insert under the unique index. */
  function StoreRefusal(rows: seq<VisitorCode>, req: StoreRequest, now: Timestamp, code: string): Option<Refusal>
  {
    if !StoreRequestValid(req, now) then Some(ValidationFailed)
    else if CodeTaken(rows, code) then Some(DuplicateCode)
    else None
  }

  /** A random source that eventually yields an unused code gives the loop a
      stopping draw, and that draw is an upper-case code no live row carries. */
  lemma FreshDrawExists(rows: seq<VisitorCode>, draws: seq<RandomToken>)
    requires exists k :: 0 <= k < |draws| && !LiveCodeExists(rows, Upper(draws[k]))
    ensures FreshDraw(rows, draws).Some?
    ensures var code := Upper(draws[FreshDraw(rows, draws).value]);
      IsUpperAlnumCode(code) && !LiveCodeExists(rows, code)
  {
    var k :| 0 <= k < |draws| && !LiveCodeExists(rows, Upper(draws[k]));
    assert !(LiveCodeExists(rows, Upper(draws[k])));
    UpperOfRandomToken(draws[FreshDraw(rows, draws).value]);
  }

  /** `findOrFail($id)`: the id names a live row. */
  predicate Found(rows: seq<VisitorCode>, id: nat)
  {
    id < |rows| && Live(rows[id])
  }

  /** The state change of a successful check-in, shared by `verify` and `verifyByCode`. */
  function CheckIn(v: VisitorCode, actor: nat, now: Timestamp): VisitorCode
  {
    v.(verifiedBy := Some(actor), verifiedAt := Some(now), status := Active, timeIn := Some(now))
  }

  /** The guards both check-in endpoints apply to the row they found. */
  function CheckInRefusal(v: VisitorCode, now: Timestamp): Option<Refusal>
  {
    if IsExpired(v, now) then Some(CodeExpired)
    else if IsVerified(v) then Some(AlreadyVerified)
    else None
  }

  /** The first guard of `verify` that fails, if any. */
  function VerifyRefusal(rows: seq<VisitorCode>, caller: Caller, id: nat, now: Timestamp): Option<Refusal>
  {
    if !IsStaff(caller.usertype) then Some(Unauthorized)
    else if !Found(rows, id) then Some(NotFound)
    else CheckInRefusal(rows[id], now)
  }

  /** `VisitorCode::where('code', strtoupper($input))->first()`. */
  function CodeLookup(rows: seq<VisitorCode>, input: string): Option<nat>
  {
    FirstIndex(rows, (v: VisitorCode) => Live(v) && v.code == Upper(input))
  }

  /** The first guard of `verifyByCode` that fails, if any. */
  function VerifyByCodeRefusal(rows: seq<VisitorCode>, caller: Caller, input: Option<string>, now: Timestamp): Option<Refusal>
  {
    if !IsStaff(caller.usertype) then Some(Unauthorized)
    else if input.None? || |input.value| != 6 then Some(ValidationFailed)
    else match CodeLookup(rows, input.value)
      case None => Some(NotFound)
      case Some(i) => CheckInRefusal(rows[i], now)
  }

  /** The first guard of `cancel` that fails: only the caller's own live codes are found. */
  function CancelRefusal(rows: seq<VisitorCode>, caller: Caller, id: nat): Option<Refusal>
  {
    if !(Found(rows, id) && rows[id].owner == caller.id) then Some(NotFound)
    else if IsVerified(rows[id]) then Some(CannotCancelVerified)
    else None
  }

  /** The first guard of `setTimeIn` that fails. */
  function TimeInRefusal(rows: seq<VisitorCode>, caller: Caller, id: nat): Option<Refusal>
  {
    if !IsStaff(caller.usertype) then Some(Unauthorized)
    else if !Found(rows, id) then Some(NotFound)
    else if rows[id].status != Pending then Some(MustBePending)
    else None
  }

  /** The first guard of `setTimeOut` that fails. */
  function TimeOutRefusal(rows: seq<VisitorCode>, caller: Caller, id: nat): Option<Refusal>
  {
    if !IsStaff(caller.usertype) then Some(Unauthorized)
    else if !Found(rows, id) then Some(NotFound)
    else if rows[id].status != Active then Some(MustBeActive)
    else None
  }

  /** The `visitor_codes` table together with the `activities` log it writes to. */
  class VisitorCodeTable {
    var rows: seq<VisitorCode>
    var log: seq<Activity>

    ghost predicate Valid()
      reads this
    {
      CodesDistinct(rows)
    }

    constructor ()
      ensures Valid() && rows == [] && log == []
    {
      rows, log := [], [];
    }

    /** The do-while of `store`: draw `strtoupper(Str::random(6))` until no live
        row carries it. `draws` are the successive draws of the random source,
        which is required to produce an unused code eventually. */
    method GenerateCode(draws: seq<RandomToken>) returns (code: string)
      requires exists k :: 0 <= k < |draws| && !LiveCodeExists(rows, Upper(draws[k]))
      ensures IsUpperAlnumCode(code)
      ensures !LiveCodeExists(rows, code)
      ensures FreshDraw(rows, draws).Some? && code == Upper(draws[FreshDraw(rows, draws).value])
    {
      ghost var k :| 0 <= k < |draws| && !LiveCodeExists(rows, Upper(draws[k]));
      var i := 0;
      while LiveCodeExists(rows, Upper(draws[i]))
        invariant 0 <= i <= k
        invariant forall j :: 0 <= j < i ==> LiveCodeExists(rows, Upper(draws[j]))
        decreases k - i
      {
        i := i + 1;
      }
      code := Upper(draws[i]);
      UpperOfRandomToken(draws[i]);
      var f := FreshDraw(rows, draws);
      assert f.Some? by {
        assert !(LiveCodeExists(rows, Upper(draws[i])));
      }
      assert f.value <= i by {
        assert !LiveCodeExists(rows, Upper(draws[i]));
      }
    }

    /** `store`: validate (422), generate a code, insert the row as `pending`
        (500 when the unique index rejects a code that only a soft-deleted row
        carries) and log `visitor_code_created`. */
    method Store(caller: Caller, req: StoreRequest, now: Timestamp, draws: seq<RandomToken>)
      returns (resp: Response<VisitorCode>)
      requires Valid()
      requires exists k :: 0 <= k < |draws| && !LiveCodeExists(rows, Upper(draws[k]))
      modifies this
      ensures Valid()
      ensures FreshDraw(old(rows), draws).Some?
      ensures var code := Upper(draws[FreshDraw(old(rows), draws).value]);
        && IsUpperAlnumCode(code) && !LiveCodeExists(old(rows), code)
        && var refusal := StoreRefusal(old(rows), req, now, code);
        && (refusal.Some? ==> resp == Refused(refusal.value) && rows == old(rows) && log == old(log))
        && (refusal.None? ==>
        && (forall j :: 0 <= j < |old(rows)| ==> old(rows)[j].code != code)
        && rows == old(rows) + [Issued(caller.id, req, code)]
        && log == old(log) + [Activity(caller.id, "visitor_code_created", RelatedType, |old(rows)|)]
        && resp == Ok(201, Issued(caller.id, req, code)))
    {
      if !StoreRequestValid(req, now) {
        FreshDrawExists(rows, draws);
        return Refused(ValidationFailed);
      }
      var code := GenerateCode(draws);
      if CodeTaken(rows, code) {
        return Refused(DuplicateCode);
      }
      var v := Issued(caller.id, req, code);
      rows := rows + [v];
      log := log + [Activity(caller.id, "visitor_code_created", RelatedType, |rows| - 1)];
      resp := Ok(201, v);
    }

    /** `verify($id)`: staff (403), found (404), not expired (400), not yet
        verified (400); then check in and log `visitor_code_verified`. */
    method Verify(caller: Caller, id: nat, now: Timestamp) returns (resp: Response<VisitorCode>)
      requires Valid()
      modifies this
      ensures Valid()
      ensures VerifyRefusal(old(rows), caller, id, now).Some? ==>
        resp == Refused(VerifyRefusal(old(rows), caller, id, now).value) && rows == old(rows) && log == old(log)
      ensures VerifyRefusal(old(rows), caller, id, now).None? ==>
        && id < |old(rows)|
        && rows == old(rows)[id := CheckIn(old(rows)[id], caller.id, now)]
        && log == old(log) + [Activity(caller.id, "visitor_code_verified", RelatedType, id)]
        && resp == Ok(200, rows[id])
    {
      if !IsStaff(caller.usertype) {
        return Refused(Unauthorized);
      }
      if !(id < |rows| && Live(rows[id])) {
        return Refused(NotFound);
      }
      var v := rows[id];
      if IsExpired(v, now) {
        return Refused(CodeExpired);
      }
      if IsVerified(v) {
        return Refused(AlreadyVerified);
      }
      var w := CheckIn(v, caller.id, now);
      rows := rows[id := w];
      log := log + [Activity(caller.id, "visitor_code_verified", RelatedType, id)];
      resp := Ok(200, w);
    }

    /** `verifyByCode`: staff (403), input of exactly six characters (422),
        lookup of the upper-cased input among live rows (404), then the same
        guards and update as `verify`, logging `visitor_code_verified_by_code`. */
    method VerifyByCode(caller: Caller, input: Option<string>, now: Timestamp) returns (resp: Response<VisitorCode>)
      requires Valid()
      modifies this
      ensures Valid()
      ensures VerifyByCodeRefusal(old(rows), caller, input, now).Some? ==>
        resp == Refused(VerifyByCodeRefusal(old(rows), caller, input, now).value) && rows == old(rows) && log == old(log)
      ensures VerifyByCodeRefusal(old(rows), caller, input, now).None? ==>
        && input.Some? && CodeLookup(old(rows), input.value).Some?
        && var i := CodeLookup(old(rows), input.value).value;
        && i < |old(rows)|
        && rows == old(rows)[i := CheckIn(old(rows)[i], caller.id, now)]
        && log == old(log) + [Activity(caller.id, "visitor_code_verified_by_code", RelatedType, i)]
        && resp == Ok(200, rows[i])
    {
      if !IsStaff(caller.usertype) {
        return Refused(Unauthorized);
      }
      if input.None? || |input.value| != 6 {
        return Refused(ValidationFailed);
      }
      var found := CodeLookup(rows, input.value);
      if found.None? {
        return Refused(NotFound);
      }
      var i := found.value;
      var v := rows[i];
      if IsExpired(v, now) {
        return Refused(CodeExpired);
      }
      if IsVerified(v) {
        return Refused(AlreadyVerified);
      }
      var w := CheckIn(v, caller.id, now);
      rows := rows[i := w];
      log := log + [Activity(caller.id, "visitor_code_verified_by_code", RelatedType, i)];
      resp := Ok(200, w);
    }

    /** `cancel($id)`: only the caller's own live codes are found (404); a
        verified code cannot be cancelled (400); otherwise only `status` becomes
        `cancelled`, whatever it was, and `visitor_code_cancelled` is logged. */
    method Cancel(caller: Caller, id: nat) returns (resp: Response<()>)
      requires Valid()
      modifies this
      ensures Valid()
      ensures CancelRefusal(old(rows), caller, id).Some? ==>
        resp == Refused(CancelRefusal(old(rows), caller, id).value) && rows == old(rows) && log == old(log)
      ensures CancelRefusal(old(rows), caller, id).None? ==>
        && id < |old(rows)|
        && rows == old(rows)[id := old(rows)[id].(status := Cancelled)]
        && log == old(log) + [Activity(caller.id, "visitor_code_cancelled", RelatedType, id)]
        && resp == Ok(200, ())
    {
      if !(id < |rows| && Live(rows[id]) && rows[id].owner == caller.id) {
        return Refused(NotFound);
      }
      if IsVerified(rows[id]) {
        return Refused(CannotCancelVerified);
      }
      rows := rows[id := rows[id].(status := Cancelled)];
      log := log + [Activity(caller.id, "visitor_code_cancelled", RelatedType, id)];
      resp := Ok(200, ());
    }

    /** `setTimeIn($id)`: staff (403), found (404), status exactly `pending`
        (400); sets `time_in` and `status = active` and logs `visitor_code_time_in`.
        `verified_at` and `verified_by` are left as they were. */
    method SetTimeIn(caller: Caller, id: nat, now: Timestamp) returns (resp: Response<VisitorCode>)
      requires Valid()
      modifies this
      ensures Valid()
      ensures TimeInRefusal(old(rows), caller, id).Some? ==>
        resp == Refused(TimeInRefusal(old(rows), caller, id).value) && rows == old(rows) && log == old(log)
      ensures TimeInRefusal(old(rows), caller, id).None? ==>
        && id < |old(rows)|
        && rows == old(rows)[id := old(rows)[id].(timeIn := Some(now), status := Active)]
        && log == old(log) + [Activity(caller.id, "visitor_code_time_in", RelatedType, id)]
        && resp == Ok(200, rows[id])
    {
      if !IsStaff(caller.usertype) {
        return Refused(Unauthorized);
      }
      if !(id < |rows| && Live(rows[id])) {
        return Refused(NotFound);
      }
      if rows[id].status != Pending {
        return Refused(MustBePending);
      }
      var w := rows[id].(timeIn := Some(now), status := Active);
      rows := rows[id := w];
      log := log + [Activity(caller.id, "visitor_code_time_in", RelatedType, id)];
      resp := Ok(200, w);
    }

    /** `setTimeOut($id)`: staff (403), found (404), status exactly `active`
        (400); sets `time_out` and `status = complete` and logs `visitor_code_time_out`. */
    method SetTimeOut(caller: Caller, id: nat, now: Timestamp) returns (resp: Response<VisitorCode>)
      requires Valid()
      modifies this
      ensures Valid()
      ensures TimeOutRefusal(old(rows), caller, id).Some? ==>
        resp == Refused(TimeOutRefusal(old(rows), caller, id).value) && rows == old(rows) && log == old(log)
      ensures TimeOutRefusal(old(rows), caller, id).None? ==>
        && id < |old(rows)|
        && rows == old(rows)[id := old(rows)[id].(timeOut := Some(now), status := Complete)]
        && log == old(log) + [Activity(caller.id, "visitor_code_time_out", RelatedType, id)]
        && resp == Ok(200, rows[id])
    {
      if !IsStaff(caller.usertype) {
        return Refused(Unauthorized);
      }
      if !(id < |rows| && Live(rows[id])) {
        return Refused(NotFound);
      }
      if rows[id].status != Active {
        return Refused(MustBeActive);
      }
      var w := rows[id].(timeOut := Some(now), status := Complete);
      rows := rows[id := w];
      log := log + [Activity(caller.id, "visitor_code_time_out", RelatedType, id)];
      resp := Ok(200, w);
    }
  }

  /** After a check-in the row is verified, whatever its status was, and both
      check-in endpoints refuse it from then on: `verified_at` is set at most once
      through them. */
  lemma CheckInOnce(v: VisitorCode, actor: nat, now: Timestamp, later: Timestamp)
    ensures IsVerified(CheckIn(v, actor, now)) && CheckIn(v, actor, now).status == Active
    ensures CheckIn(v, actor, now).verifiedBy == Some(actor) && CheckIn(v, actor, now).timeIn == Some(now)
    ensures CheckIn(v, actor, now).code == v.code && CheckIn(v, actor, now).expiresAt == v.expiresAt
    ensures CheckInRefusal(CheckIn(v, actor, now), later).Some?
  {
  }

  /** `verify` refuses an expired code as expired even when it was also verified:
      the expiry guard comes first. */
  lemma ExpiryPrecedence(rows: seq<VisitorCode>, caller: Caller, id: nat, now: Timestamp)
    requires IsStaff(caller.usertype) && Found(rows, id) && IsExpired(rows[id], now)
    ensures VerifyRefusal(rows, caller, id, now) == Some(CodeExpired)
  {
  }

  /** No guard of `verify`, `verifyByCode` or `cancel` reads `status`: replacing
      the status of any row changes none of their answers. */
  lemma {:induction false} StatusIgnoredByCheckInAndCancel(rows: seq<VisitorCode>, i: nat, s: Status,
                                                            caller: Caller, id: nat, input: Option<string>, now: Timestamp)
    requires i < |rows|
    ensures var rows' := rows[i := rows[i].(status := s)];
      && VerifyRefusal(rows', caller, id, now) == VerifyRefusal(rows, caller, id, now)
      && VerifyByCodeRefusal(rows', caller, input, now) == VerifyByCodeRefusal(rows, caller, input, now)
      && CancelRefusal(rows', caller, id) == CancelRefusal(rows, caller, id)
  {
    var rows' := rows[i := rows[i].(status := s)];
    if input.Some? {
      FirstIndexRespectsAgreement(rows, rows', (v: VisitorCode) => Live(v) && v.code == Upper(input.value));
    }
  }

  /** So an unexpired, never-verified cancelled code is checked in again and
      becomes active. */
  lemma CancelledCodeReactivates(rows: seq<VisitorCode>, caller: Caller, id: nat, now: Timestamp)
    requires IsStaff(caller.usertype) && Found(rows, id)
    requires rows[id].status == Cancelled && !IsExpired(rows[id], now) && !IsVerified(rows[id])
    ensures VerifyRefusal(rows, caller, id, now) == None
    ensures CheckIn(rows[id], caller.id, now).status == Active
  {
  }

  /** Looking a code up by any input whose upper-cased form is a live row's code
      finds exactly that row, so a lower-case entry of an issued code finds it. */
  lemma LookupFindsCode(rows: seq<VisitorCode>, i: nat, input: string)
    requires CodesDistinct(rows)
    requires Found(rows, i) && Upper(input) == rows[i].code
    ensures CodeLookup(rows, input) == Some(i)
  {
    var f := CodeLookup(rows, input);
    assert f.Some? by {
      assert Live(rows[i]) && rows[i].code == Upper(input);
    }
  }

  /** For a live row, `verifyByCode` with a six-character input naming its code
      answers exactly as `verify` with its id. */
  lemma VerifyByCodeAgreesWithVerify(rows: seq<VisitorCode>, caller: Caller, i: nat, input: string, now: Timestamp)
    requires CodesDistinct(rows)
    requires Found(rows, i) && |input| == 6 && Upper(input) == rows[i].code
    ensures VerifyByCodeRefusal(rows, caller, Some(input), now) == VerifyRefusal(rows, caller, i, now)
  {
    LookupFindsCode(rows, i, input);
  }

  /** Cancelling refuses codes of other owners as not found, and otherwise
      accepts every unverified code whatever its status, including completed,
      expired and already cancelled ones. */
  lemma CancelGuard(rows: seq<VisitorCode>, caller: Caller, id: nat)
    ensures Found(rows, id) && rows[id].owner != caller.id ==> CancelRefusal(rows, caller, id) == Some(NotFound)
    ensures Found(rows, id) && rows[id].owner == caller.id && !IsVerified(rows[id]) ==> CancelRefusal(rows, caller, id) == None
  {
  }

  /** A manual time-in leaves `verified_at` and `verified_by` as they were, so a
      code timed in by hand is still accepted by a later check-in until it expires. */
  lemma TimeInKeepsVerification(v: VisitorCode, now: Timestamp, later: Timestamp)
    ensures var w := v.(timeIn := Some(now), status := Active);
      w.verifiedAt == v.verifiedAt && w.verifiedBy == v.verifiedBy
      && CheckInRefusal(w, later) == CheckInRefusal(v, later)
  {
  }
}
