/** The `visitor_codes` record and the time predicates and query scopes the
    record type defines. Note the two boundaries: `IsExpired` compares
    strictly, the `expired` scope and the `active` scope do not, so at the exact
    expiry instant a code is not "expired" yet already belongs to the expired
    scope and no longer to the active one. */
module VisitorCodes {
  import opened Common

  /** `visitor_codes.status` after the enum migration. */
  datatype Status = Pending | Active | Complete | Expired | Cancelled

  /** One row of `visitor_codes`. Its id is its position in the table.
      `trashed` is true when `deleted_at` is set (soft-deleted). */
  datatype VisitorCode = VisitorCode(
    owner: nat,
    visitorName: string,
    phoneNumber: Option<string>,
    destination: string,
    numberOfVisitors: int,
    code: string,
    expiresAt: Timestamp,
    additionalNotes: Option<string>,
    verifiedBy: Option<nat>,
    verifiedAt: Option<Timestamp>,
    status: Status,
    timeIn: Option<Timestamp>,
    timeOut: Option<Timestamp>,
    trashed: bool)

  /** `isExpired()`: the expiry lies strictly before `now`. */
  predicate IsExpired(v: VisitorCode, now: Timestamp)
  {
    v.expiresAt < now
  }

  /** `isVerified()`: `verified_at` is set. */
  predicate IsVerified(v: VisitorCode)
  {
    v.verifiedAt.Some?
  }

  /** A row that queries see: the soft-delete global scope hides trashed rows. */
  predicate Live(v: VisitorCode)
  {
    !v.trashed
  }

  /** Membership in `VisitorCode::active()`. */
  predicate InActiveScope(v: VisitorCode, now: Timestamp)
  {
    Live(v) && v.status == Active && v.expiresAt > now
  }

  /** Membership in `VisitorCode::expired()`, whatever the status. */
  predicate InExpiredScope(v: VisitorCode, now: Timestamp)
  {
    Live(v) && v.expiresAt <= now
  }

  /** `VisitorCode::active()->get()`. */
  function ActiveScope(rows: seq<VisitorCode>, now: Timestamp): (r: seq<VisitorCode>)
    ensures forall i :: 0 <= i < |r| ==> r[i] in rows && Live(r[i]) && r[i].status == Active && r[i].expiresAt > now
    ensures forall i :: 0 <= i < |rows| && Live(rows[i]) && rows[i].status == Active && rows[i].expiresAt > now ==> rows[i] in r
  {
    Filter(rows, v => InActiveScope(v, now))
  }

  /** `VisitorCode::expired()->get()`. */
  function ExpiredScope(rows: seq<VisitorCode>, now: Timestamp): (r: seq<VisitorCode>)
    ensures forall i :: 0 <= i < |r| ==> r[i] in rows && Live(r[i]) && r[i].expiresAt <= now
    ensures forall i :: 0 <= i < |rows| && Live(rows[i]) && rows[i].expiresAt <= now ==> rows[i] in r
  {
    Filter(rows, v => InExpiredScope(v, now))
  }

  /** No row is selected by both scopes, for any clock value. */
  lemma ScopesDisjoint(rows: seq<VisitorCode>, now: Timestamp)
    ensures forall v :: v in ActiveScope(rows, now) ==> v !in ExpiredScope(rows, now)
  {
  }

  /** A live code that `isExpired()` is in the expired scope; the converse fails
      exactly at the expiry instant. */
  lemma ExpiredImpliesExpiredScope(v: VisitorCode, now: Timestamp)
    requires Live(v)
    ensures IsExpired(v, now) ==> InExpiredScope(v, now)
    ensures InExpiredScope(v, now) && !IsExpired(v, now) <==> v.expiresAt == now
  {
  }

  /** At `expires_at == now` a live code is in the expired scope but `isExpired()`
      is false, so the check-in guards still accept it. */
  lemma ExpiryInstant(v: VisitorCode, now: Timestamp)
    requires Live(v) && v.expiresAt == now
    ensures InExpiredScope(v, now) && !IsExpired(v, now) && !InActiveScope(v, now)
  {
  }

  /** Whether a live row already carries `code` (`VisitorCode::where('code', $code)->exists()`). */
  predicate LiveCodeExists(rows: seq<VisitorCode>, code: string)
  {
    exists i :: 0 <= i < |rows| && Live(rows[i]) && rows[i].code == code
  }

  /** The unique index on `code`, which also covers soft-deleted rows. */
  predicate CodesDistinct(rows: seq<VisitorCode>)
  {
    forall i, j :: 0 <= i < j < |rows| ==> rows[i].code != rows[j].code
  }
}
