/** Complaints and suggestions: a resident files one (it starts `pending`),
    an admin updates its status and notes or replies to it, and the read-only
    endpoints list the caller's own complaints, count them by status, type
    and severity, and return the fixed list of categories.

    Status changes carry no transition guard: an update may move any status
    to any status, and a reply only moves `pending` to `in_progress`. */
module ComplaintController {
  import opened Common

  datatype Kind = ComplaintKind | SuggestionKind
  datatype Severity = Low | Medium | High | Critical
  /** `complaints.status` after the enum migration. */
  datatype ComplaintStatus = Pending | Acknowledged | InProgress | Resolved | Closed

  function KindName(k: Kind): string
  {
    match k
    case ComplaintKind => "complaint"
    case SuggestionKind => "suggestion"
  }

  function SeverityName(s: Severity): string
  {
    match s
    case Low => "low"
    case Medium => "medium"
    case High => "high"
    case Critical => "critical"
  }

  function StatusName(s: ComplaintStatus): string
  {
    match s
    case Pending => "pending"
    case Acknowledged => "acknowledged"
    case InProgress => "in_progress"
    case Resolved => "resolved"
    case Closed => "closed"
  }

  /** The rule `in:complaint,suggestion`, read back as the enum value. */
  function ParseKind(s: string): (r: Option<Kind>)
    ensures r.Some? <==> s == "complaint" || s == "suggestion"
    ensures r.Some? ==> KindName(r.value) == s
  {
    if s == "complaint" then Some(ComplaintKind)
    else if s == "suggestion" then Some(SuggestionKind)
    else None
  }

  /** The rule `in:low,medium,high,critical`. */
  function ParseSeverity(s: string): (r: Option<Severity>)
    ensures r.Some? <==> s == "low" || s == "medium" || s == "high" || s == "critical"
    ensures r.Some? ==> SeverityName(r.value) == s
  {
    if s == "low" then Some(Low)
    else if s == "medium" then Some(Medium)
    else if s == "high" then Some(High)
    else if s == "critical" then Some(Critical)
    else None
  }

  /** The rule `in:pending,acknowledged,in_progress,resolved,closed`. */
  function ParseStatus(s: string): (r: Option<ComplaintStatus>)
    ensures r.Some? <==> s == "pending" || s == "acknowledged" || s == "in_progress" || s == "resolved" || s == "closed"
    ensures r.Some? ==> StatusName(r.value) == s
  {
    if s == "pending" then Some(Pending)
    else if s == "acknowledged" then Some(Acknowledged)
    else if s == "in_progress" then Some(InProgress)
    else if s == "resolved" then Some(Resolved)
    else if s == "closed" then Some(Closed)
    else None
  }

  /** Every enum value is accepted by its validation rule under its own name. */
  lemma NamesParse(k: Kind, sv: Severity, st: ComplaintStatus)
    ensures ParseKind(KindName(k)) == Some(k)
    ensures ParseSeverity(SeverityName(sv)) == Some(sv)
    ensures ParseStatus(StatusName(st)) == Some(st)
  {
  }

  /** One row of `complaints`. Its id is its position in the table. */
  datatype Complaint = Complaint(
    owner: nat,
    kind: Kind,
    category: string,
    severity: Severity,
    title: string,
    description: string,
    status: ComplaintStatus,
    adminNotes: Option<string>,
    resolvedAt: Option<Timestamp>,
    resolvedBy: Option<nat>,
    createdAt: Timestamp,
    trashed: bool)

  /** The soft-delete global scope hides trashed complaints from every query. */
  predicate Live(c: Complaint)
  {
    !c.trashed
  }

  /** `Complaint::findOrFail($id)` succeeds. */
  predicate Found(rows: seq<Complaint>, id: nat)
  {
    id < |rows| && Live(rows[id])
  }

  /** One row of `complaint_replies`. */
  datatype ComplaintReply = ComplaintReply(complaintId: nat, userId: nat, message: string)

  datatype Refusal = Unauthorized | ValidationFailed | NotFound
  {
    function Status(): int
    {
      match this
      case Unauthorized => 403
      case ValidationFailed => 422
      case NotFound => 404
    }
  }

  datatype Response<T> = Ok(status: int, data: T) | Refused(reason: Refusal)

  const RelatedType := "App\\Models\\Complaint"

  /** The body of `POST /complaints`; `kind` is the `type` key. */
  datatype StoreRequest = StoreRequest(
    kind: Option<string>,
    category: Option<string>,
    severity: Option<string>,
    title: Option<string>,
    description: Option<string>)

  predicate StoreRequestValid(req: StoreRequest)
  {
    && req.kind.Some? && ParseKind(req.kind.value).Some?
    && RequiredMax(req.category, 255)
    && req.severity.Some? && ParseSeverity(req.severity.value).Some?
    && RequiredMax(req.title, 255)
    && RequiredMax(req.description, 2000)
  }

  /** The body of `PUT /complaints/{id}`; a key that is absent is `None`. */
  datatype UpdateRequest = UpdateRequest(status: Option<string>, adminNotes: Option<string>)

  predicate UpdateRequestValid(req: UpdateRequest)
  {
    && (req.status.None? || ParseStatus(req.status.value).Some?)
    && (req.adminNotes.None? || |req.adminNotes.value| <= 1000)
  }

  /** `$complaint->update($updateData)`: the keys present in the request are
      written, and choosing `resolved` also stamps `resolved_at` and `resolved_by`. */
  function ApplyUpdate(c: Complaint, status: Option<ComplaintStatus>, notes: Option<string>,
                       actor: nat, now: Timestamp): (r: Complaint)
    ensures r == c.(status := r.status, adminNotes := r.adminNotes, resolvedAt := r.resolvedAt, resolvedBy := r.resolvedBy)
    ensures r.status == (if status.Some? then status.value else c.status)
    ensures r.adminNotes == (if notes.Some? then notes else c.adminNotes)
    ensures status == Some(Resolved) ==> r.resolvedAt == Some(now) && r.resolvedBy == Some(actor)
    ensures status != Some(Resolved) ==> r.resolvedAt == c.resolvedAt && r.resolvedBy == c.resolvedBy
  {
    var withStatus := if status.Some? then c.(status := status.value) else c;
    var withNotes := if notes.Some? then withStatus.(adminNotes := notes) else withStatus;
    if status.Some? && status.value == Resolved then
      withNotes.(resolvedAt := Some(now), resolvedBy := Some(actor))
    else withNotes
  }

  /** No transition guard: from every status, every status can be set. */
  lemma AnyStatusToAnyStatus(c: Complaint, target: ComplaintStatus, actor: nat, now: Timestamp)
    ensures UpdateRequestValid(UpdateRequest(Some(StatusName(target)), None))
    ensures ApplyUpdate(c, ParseStatus(StatusName(target)), None, actor, now).status == target
  {
    NamesParse(ComplaintKind, Low, target);
  }

  /** A reply moves `pending` to `in_progress` and leaves every other status alone. */
  function AfterReply(c: Complaint): (r: Complaint)
    ensures c.status == Pending ==> r.status == InProgress
    ensures c.status != Pending ==> r == c
    ensures r == c.(status := r.status)
  {
    if c.status == Pending then c.(status := InProgress) else c
  }

  /** The optional filters of `index`; each value is compared with the column's text. */
  datatype IndexFilters = IndexFilters(
    kind: Option<string>,
    status: Option<string>,
    severity: Option<string>,
    category: Option<string>)

  /** The conjunction of `where` clauses `index` builds for the caller. */
  predicate Matches(c: Complaint, owner: nat, f: IndexFilters)
  {
    && Live(c)
    && c.owner == owner
    && (f.kind.None? || KindName(c.kind) == f.kind.value)
    && (f.status.None? || StatusName(c.status) == f.status.value)
    && (f.severity.None? || SeverityName(c.severity) == f.severity.value)
    && (f.category.None? || c.category == f.category.value)
  }

  /** `orderBy('created_at', 'desc')`: newest first. */
  predicate NewestFirst(s: seq<Complaint>)
  {
    forall i, j :: 0 <= i < j < |s| ==> s[i].createdAt >= s[j].createdAt
  }

  function InsertByDate(c: Complaint, s: seq<Complaint>): (r: seq<Complaint>)
    requires NewestFirst(s)
    ensures |r| == |s| + 1
    ensures r[0] == c || (|s| > 0 && r[0] == s[0])
    ensures NewestFirst(r)
    ensures multiset(r) == multiset(s) + multiset{c}
  {
    if s == [] || c.createdAt >= s[0].createdAt then [c] + s
    else
      assert s == [s[0]] + s[1..];
      [s[0]] + InsertByDate(c, s[1..])
  }

  /** The rows of `s` ordered newest first (ties in an order the database may pick differently). */
  function SortNewestFirst(s: seq<Complaint>): (r: seq<Complaint>)
    ensures NewestFirst(r)
    ensures multiset(r) == multiset(s)
  {
    if s == [] then []
    else
      assert s == [s[0]] + s[1..];
      InsertByDate(s[0], SortNewestFirst(s[1..]))
  }

  /** `index`: the caller's complaints that pass every supplied filter, newest first. */
  function Index(rows: seq<Complaint>, caller: Caller, f: IndexFilters): (r: seq<Complaint>)
    ensures NewestFirst(r)
    ensures forall i :: 0 <= i < |r| ==> r[i] in rows && Matches(r[i], caller.id, f)
    ensures forall i :: 0 <= i < |rows| && Matches(rows[i], caller.id, f) ==> rows[i] in r
    ensures multiset(r) == multiset(Filter(rows, (c: Complaint) => Matches(c, caller.id, f)))
  {
    var selected := Filter(rows, (c: Complaint) => Matches(c, caller.id, f));
    var r := SortNewestFirst(selected);
    SameElements(r, selected);
    SameElements(selected, r);
    r
  }

  /** The counters `statistics` reports. */
  datatype Stats = Stats(
    total: nat,
    pending: nat, acknowledged: nat, inProgress: nat, resolved: nat, closed: nat,
    complaints: nat, suggestions: nat,
    low: nat, medium: nat, high: nat, critical: nat)

  function CountStatus(rows: seq<Complaint>, st: ComplaintStatus): nat
  {
    Count(rows, (c: Complaint) => Live(c) && c.status == st)
  }

  function CountKind(rows: seq<Complaint>, k: Kind): nat
  {
    Count(rows, (c: Complaint) => Live(c) && c.kind == k)
  }

  function CountSeverity(rows: seq<Complaint>, sv: Severity): nat
  {
    Count(rows, (c: Complaint) => Live(c) && c.severity == sv)
  }

  function CountLive(rows: seq<Complaint>): nat
  {
    Count(rows, (c: Complaint) => Live(c))
  }

  function Statistics(rows: seq<Complaint>): Stats
  {
    Stats(CountLive(rows),
          CountStatus(rows, Pending), CountStatus(rows, Acknowledged), CountStatus(rows, InProgress),
          CountStatus(rows, Resolved), CountStatus(rows, Closed),
          CountKind(rows, ComplaintKind), CountKind(rows, SuggestionKind),
          CountSeverity(rows, Low), CountSeverity(rows, Medium), CountSeverity(rows, High),
          CountSeverity(rows, Critical))
  }

  /** `statistics()`: admins only. */
  function StatisticsFor(caller: Caller, rows: seq<Complaint>): (r: Response<Stats>)
    ensures caller.usertype != Admin <==> r == Refused(Unauthorized)
    ensures caller.usertype == Admin <==> r == Ok(200, Statistics(rows))
  {
    if caller.usertype != Admin then Refused(Unauthorized) else Ok(200, Statistics(rows))
  }

  /** Each counter is the size of its `where`, and the per-status, per-type and
      per-severity counters each add up to the total. */
  lemma {:induction false} StatisticsPartition(rows: seq<Complaint>)
    ensures var s := Statistics(rows);
      && s.pending + s.acknowledged + s.inProgress + s.resolved + s.closed == s.total
      && s.complaints + s.suggestions == s.total
      && s.low + s.medium + s.high + s.critical == s.total
  {
    if rows != [] {
      StatisticsPartition(rows[1..]);
    }
  }

  /** A counter counts exactly the rows with that value. */
  lemma StatusCountIsSelection(rows: seq<Complaint>, st: ComplaintStatus)
    ensures CountStatus(rows, st) == |Filter(rows, (c: Complaint) => Live(c) && c.status == st)|
  {
    CountIsFilterLength(rows, (c: Complaint) => Live(c) && c.status == st);
  }

  /** `categories()`: the fixed list offered to residents. */
  const Categories: seq<string> := [
    "Security", "Maintenance", "Utilities", "Parking", "Common Areas", "Noise", "Cleaning",
    "Access Control", "Elevator", "Garden/Landscaping", "Waste Management", "Internet/WiFi", "Other"]

  /** Thirteen distinct categories, ending with the catch-all "Other". */
  lemma CategoriesDistinct()
    ensures |Categories| == 13 && Categories[12] == "Other"
    ensures forall i, j :: 0 <= i < j < |Categories| ==> Categories[i] != Categories[j]
  {
  }

  /** The first guard of `update` that fails: admins only, then validation, then `findOrFail`. */
  function UpdateRefusal(rows: seq<Complaint>, caller: Caller, id: nat, req: UpdateRequest): Option<Refusal>
  {
    if caller.usertype != Admin then Some(Unauthorized)
    else if !UpdateRequestValid(req) then Some(ValidationFailed)
    else if !Found(rows, id) then Some(NotFound)
    else None
  }

  /** The first guard of `reply` that fails: admins only, then the message rule, then `findOrFail`. */
  function ReplyRefusal(rows: seq<Complaint>, caller: Caller, id: nat, message: Option<string>): Option<Refusal>
  {
    if caller.usertype != Admin then Some(Unauthorized)
    else if !RequiredMax(message, 2000) then Some(ValidationFailed)
    else if !Found(rows, id) then Some(NotFound)
    else None
  }

  /** The `complaints` table, the `complaint_replies` table and the activity log. */
  class ComplaintDesk {
    var rows: seq<Complaint>
    var replies: seq<ComplaintReply>
    var log: seq<Activity>

    constructor ()
      ensures rows == [] && replies == [] && log == []
    {
      rows, replies, log := [], [], [];
    }

    /** `store`: validate (422), create the complaint as `pending` and log `complaint_created`. */
    method Store(caller: Caller, req: StoreRequest, now: Timestamp) returns (resp: Response<Complaint>)
      modifies this
      ensures replies == old(replies)
      ensures !StoreRequestValid(req) <==> resp == Refused(ValidationFailed)
      ensures StoreRequestValid(req) <==> resp.Ok?
      ensures resp.Refused? ==> rows == old(rows) && log == old(log)
      ensures resp.Ok? ==>
        && resp.status == 201
        && rows == old(rows) + [resp.data]
        && resp.data == Complaint(caller.id, ParseKind(req.kind.value).value, req.category.value,
                                  ParseSeverity(req.severity.value).value, req.title.value,
                                  req.description.value, Pending, None, None, None, now, false)
        && log == old(log) + [Activity(caller.id, "complaint_created", RelatedType, |old(rows)|)]
    {
      if !StoreRequestValid(req) {
        return Refused(ValidationFailed);
      }
      var c := Complaint(caller.id, ParseKind(req.kind.value).value, req.category.value,
                         ParseSeverity(req.severity.value).value, req.title.value,
                         req.description.value, Pending, None, None, None, now, false);
      rows := rows + [c];
      log := log + [Activity(caller.id, "complaint_created", RelatedType, |rows| - 1)];
      resp := Ok(201, c);
    }

    /** `update($id)`: admins only (403), validation (422), found (404); then
        write the supplied keys, stamp the resolution when the new status is
        `resolved`, and log `complaint_updated`. */
    method Update(caller: Caller, id: nat, req: UpdateRequest, now: Timestamp) returns (resp: Response<Complaint>)
      modifies this
      ensures replies == old(replies)
      ensures UpdateRefusal(old(rows), caller, id, req).Some? ==>
        resp == Refused(UpdateRefusal(old(rows), caller, id, req).value) && rows == old(rows) && log == old(log)
      ensures UpdateRefusal(old(rows), caller, id, req).None? ==>
        && id < |old(rows)|
        && var status := if req.status.Some? then ParseStatus(req.status.value) else None;
        && rows == old(rows)[id := ApplyUpdate(old(rows)[id], status, req.adminNotes, caller.id, now)]
        && log == old(log) + [Activity(caller.id, "complaint_updated", RelatedType, id)]
        && resp == Ok(200, rows[id])
    {
      if caller.usertype != Admin {
        return Refused(Unauthorized);
      }
      if !UpdateRequestValid(req) {
        return Refused(ValidationFailed);
      }
      if !Found(rows, id) {
        return Refused(NotFound);
      }
      var status := if req.status.Some? then ParseStatus(req.status.value) else None;
      var c := ApplyUpdate(rows[id], status, req.adminNotes, caller.id, now);
      rows := rows[id := c];
      log := log + [Activity(caller.id, "complaint_updated", RelatedType, id)];
      resp := Ok(200, c);
    }

    /** `reply($id)`: admins only (403), a message of at most 2000 characters
        (422), found (404); then create exactly one reply, advance `pending` to
        `in_progress`, and log `complaint_replied`. */
    method Reply(caller: Caller, id: nat, message: Option<string>) returns (resp: Response<ComplaintReply>)
      modifies this
      ensures ReplyRefusal(old(rows), caller, id, message).Some? ==>
        && resp == Refused(ReplyRefusal(old(rows), caller, id, message).value)
        && rows == old(rows) && replies == old(replies) && log == old(log)
      ensures ReplyRefusal(old(rows), caller, id, message).None? ==>
        && message.Some? && id < |old(rows)|
        && resp == Ok(201, ComplaintReply(id, caller.id, message.value))
        && replies == old(replies) + [resp.data]
        && rows == old(rows)[id := AfterReply(old(rows)[id])]
        && log == old(log) + [Activity(caller.id, "complaint_replied", RelatedType, id)]
    {
      if caller.usertype != Admin {
        return Refused(Unauthorized);
      }
      if !RequiredMax(message, 2000) {
        return Refused(ValidationFailed);
      }
      if !Found(rows, id) {
        return Refused(NotFound);
      }
      var reply := ComplaintReply(id, caller.id, message.value);
      replies := replies + [reply];
      if rows[id].status == Pending {
        rows := rows[id := rows[id].(status := InProgress)];
      }
      log := log + [Activity(caller.id, "complaint_replied", RelatedType, id)];
      resp := Ok(201, reply);
    }
  }
}
