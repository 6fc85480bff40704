/** The `visitor-codes:expire` console command: one bulk update that marks
    every live pending or active code whose expiry is at or before `now` as
    expired, and reports how many rows it changed. */
module ExpireVisitorCodes {
  import opened Common
  import opened VisitorCodes
  import opened VisitorCodeController

  /** The rows the command's query selects: live, `expires_at <= now`,
      status pending or active. */
  predicate Stale(v: VisitorCode, now: Timestamp)
  {
    Live(v) && v.expiresAt <= now && (v.status == Pending || v.status == Active)
  }

  /** What the update does to one row. */
  function Sweep(v: VisitorCode, now: Timestamp): VisitorCode
  {
    if Stale(v, now) then v.(status := Expired) else v
  }

  /** The table after the update. */
  function Swept(rows: seq<VisitorCode>, now: Timestamp): (r: seq<VisitorCode>)
    ensures |r| == |rows|
    ensures forall i :: 0 <= i < |rows| ==> r[i] == Sweep(rows[i], now)
  {
    if rows == [] then [] else [Sweep(rows[0], now)] + Swept(rows[1..], now)
  }

  /** The number of rows the query selects. */
  function StaleCount(rows: seq<VisitorCode>, now: Timestamp): nat
  {
    Count(rows, (v: VisitorCode) => Stale(v, now))
  }

  /** How many positions differ between two tables of the same length. */
  function Changed(before: seq<VisitorCode>, after: seq<VisitorCode>): nat
    requires |before| == |after|
  {
    if before == [] then 0
    else (if before[0] != after[0] then 1 else 0) + Changed(before[1..], after[1..])
  }

  /** `handle()`: the in-place bulk update over the table, returning the number
      of rows updated and the exit code. The activity log is not written. */
  method Handle(table: VisitorCodeTable, now: Timestamp) returns (count: nat, exitCode: int)
    requires table.Valid()
    modifies table
    ensures table.Valid()
    ensures table.rows == Swept(old(table.rows), now)
    ensures count == StaleCount(old(table.rows), now)
    ensures table.log == old(table.log)
    ensures exitCode == 0
  {
    ghost var before := table.rows;
    var i := 0;
    count := 0;
    while i < |table.rows|
      invariant 0 <= i <= |table.rows| == |before|
      invariant forall k :: 0 <= k < i ==> table.rows[k] == Sweep(before[k], now)
      invariant forall k :: i <= k < |before| ==> table.rows[k] == before[k]
      invariant count == StaleCount(before[..i], now)
      invariant table.log == old(table.log)
    {
      var v := table.rows[i];
      assert before[..i + 1] == before[..i] + [v];
      CountAppend(before[..i], [v], (v: VisitorCode) => Stale(v, now));
      if Stale(v, now) {
        table.rows := table.rows[i := v.(status := Expired)];
        count := count + 1;
      }
      i := i + 1;
    }
    assert before[..i] == before;
    assert table.rows == Swept(before, now);
    SweptKeepsCodes(before, now);
    exitCode := 0;
  }

  /** Exactly the stale rows become expired; every other row, whether complete,
      cancelled, already expired, soft-deleted or not yet due, is unchanged; and
      no field other than `status` changes. */
  lemma SweptExactly(rows: seq<VisitorCode>, now: Timestamp, i: nat)
    requires i < |rows|
    ensures var r := Swept(rows, now)[i];
      && (r.status == Expired && rows[i].status != Expired <==> Stale(rows[i], now))
      && (!Stale(rows[i], now) ==> r == rows[i])
      && r == rows[i].(status := r.status)
  {
  }

  /** The reported count is the number of rows the update changed. */
  lemma {:induction false} CountIsChanged(rows: seq<VisitorCode>, now: Timestamp)
    ensures StaleCount(rows, now) == Changed(rows, Swept(rows, now))
  {
    if rows != [] {
      assert Swept(rows, now)[1..] == Swept(rows[1..], now);
      CountIsChanged(rows[1..], now);
    }
  }

  /** A second run with the same clock changes nothing and reports 0. */
  lemma {:induction false} SweepIdempotent(rows: seq<VisitorCode>, now: Timestamp)
    ensures Swept(Swept(rows, now), now) == Swept(rows, now)
    ensures StaleCount(Swept(rows, now), now) == 0
  {
    var once := Swept(rows, now);
    assert forall i :: 0 <= i < |once| ==> !Stale(once[i], now);
    CountNone(once, (v: VisitorCode) => Stale(v, now));
  }

  /** The update leaves every code in place, so the unique index still holds. */
  lemma SweptKeepsCodes(rows: seq<VisitorCode>, now: Timestamp)
    requires CodesDistinct(rows)
    ensures CodesDistinct(Swept(rows, now))
  {
  }

  /** Every row the command expires was in the expired scope. */
  lemma StaleIsInExpiredScope(v: VisitorCode, now: Timestamp)
    requires Stale(v, now)
    ensures InExpiredScope(v, now) && !InActiveScope(v, now)
  {
  }
}
