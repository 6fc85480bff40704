/** The visibility rules of an announcement: the `active` and `published`
    query scopes and the `isExpired()` / `isPublished()` accessors, all over
    nullable timestamps. The active scope drops a record at its expiry instant
    (`expires_at > now`), while `isExpired()` only holds strictly after it. */
module Announcements {
  import opened Common

  /** One row of `announcements`; the text columns are not modelled. */
  datatype Announcement = Announcement(
    owner: nat,
    isActive: bool,
    publishedAt: Option<Timestamp>,
    expiresAt: Option<Timestamp>,
    trashed: bool)

  /** Membership in `Announcement::active()`. The soft-delete scope also applies. */
  predicate InActiveScope(a: Announcement, now: Timestamp)
  {
    !a.trashed && a.isActive && (a.expiresAt.None? || a.expiresAt.value > now)
  }

  /** Membership in `Announcement::published()`. */
  predicate InPublishedScope(a: Announcement, now: Timestamp)
  {
    !a.trashed && (a.publishedAt.None? || a.publishedAt.value <= now)
  }

  /** `isExpired()`: `$this->expires_at && $this->expires_at < now()`. */
  predicate IsExpired(a: Announcement, now: Timestamp)
  {
    a.expiresAt.Some? && a.expiresAt.value < now
  }

  /** `isPublished()`: `!$this->published_at || $this->published_at <= now()`. */
  predicate IsPublished(a: Announcement, now: Timestamp)
  {
    !(a.publishedAt.Some?) || a.publishedAt.value <= now
  }

  /** `Announcement::active()->published()->get()`, the list residents see. */
  function Visible(rows: seq<Announcement>, now: Timestamp): (r: seq<Announcement>)
    ensures forall i :: 0 <= i < |r| ==> r[i] in rows && InActiveScope(r[i], now) && InPublishedScope(r[i], now)
    ensures forall a :: a in rows ==> (a in r <==> InActiveScope(a, now) && InPublishedScope(a, now))
    ensures forall a :: InActiveScope(a, now) && InPublishedScope(a, now) ==> multiset(r)[a] == multiset(rows)[a]
    ensures forall a :: !(InActiveScope(a, now) && InPublishedScope(a, now)) ==> multiset(r)[a] == 0
  {
    var p := (a: Announcement) => InActiveScope(a, now) && InPublishedScope(a, now);
    assert forall a :: multiset(Filter(rows, p))[a] == (if p(a) then multiset(rows)[a] else 0) by {
      forall a {
        FilterMultiplicity(rows, p, a);
      }
    }
    Filter(rows, p)
  }

  /** The accessor and the scope agree on every live record at every instant. */
  lemma PublishedAgrees(a: Announcement, now: Timestamp)
    requires !a.trashed
    ensures IsPublished(a, now) <==> InPublishedScope(a, now)
  {
  }

  /** A record without an expiry never expires; one with an expiry expires
      strictly after it. */
  lemma ExpiryRule(a: Announcement, now: Timestamp)
    ensures a.expiresAt.None? ==> !IsExpired(a, now)
    ensures a.expiresAt.Some? ==> (IsExpired(a, now) <==> now > a.expiresAt.value)
  {
  }

  /** Nothing the active scope selects is expired. */
  lemma ActiveIsNotExpired(a: Announcement, now: Timestamp)
    requires InActiveScope(a, now)
    ensures !IsExpired(a, now)
  {
  }

  /** At `expires_at == now` a record is not expired but already out of the active scope. */
  lemma ExpiryInstant(a: Announcement, now: Timestamp)
    requires a.expiresAt == Some(now)
    ensures !IsExpired(a, now) && !InActiveScope(a, now)
  {
  }

  /** What a resident is shown is live, active, published by the accessor's
      reading and not expired by the accessor's reading. */
  lemma VisibleIsUnexpiredPublished(rows: seq<Announcement>, now: Timestamp, i: nat)
    requires i < |Visible(rows, now)|
    ensures var a := Visible(rows, now)[i];
      !a.trashed && a.isActive && IsPublished(a, now) && !IsExpired(a, now)
  {
    var a := Visible(rows, now)[i];
    ActiveIsNotExpired(a, now);
    PublishedAgrees(a, now);
  }
}
