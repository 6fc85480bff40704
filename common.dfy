/** Vocabulary shared by every part of the model: optional values, the user
    types stored in the `users.usertype` enum, the staff predicate that the
    middleware and the controllers' inline role checks both use, the activity
    audit record, and a few sequence and string helpers that stand for the
    query builder (`where ... ->get()`, `->first()`) and for `strtoupper`. */
module Common {

  datatype Option<+T> = None | Some(value: T)

  /** A point in time, in whole seconds. The clock is always a parameter. */
  type Timestamp = int

  /** The values of the `users.usertype` column. */
  datatype Usertype = Admin | Installer | User | Vendor | Resident | Maintainer

  /** The authenticated caller of a request: `auth()->id()` and `auth()->user()->usertype`. */
  datatype Caller = Caller(id: nat, usertype: Usertype)

  /** `in_array($usertype, ['admin', 'maintainer'])`. */
  predicate IsStaff(u: Usertype)
  {
    u == Admin || u == Maintainer
  }

  /** One row appended to the `activities` table: who did what to which record.
      The free-text description and the metadata blob are not modelled. */
  datatype Activity = Activity(userId: nat, action: string, relatedType: string, relatedId: nat)

  /** `Validator` rule `required` on a string: present and not empty. */
  predicate Required(s: Option<string>)
  {
    s.Some? && s.value != ""
  }

  /** `required|string|max:n`. */
  predicate RequiredMax(s: Option<string>, n: nat)
  {
    Required(s) && |s.value| <= n
  }

  /** `nullable|string|max:n`: absent, or at most `n` characters. */
  predicate NullableMax(s: Option<string>, n: nat)
  {
    s.None? || |s.value| <= n
  }

  /** The rows of `s` that satisfy `p`, in their original order
      (`where(...)->get()` without an explicit order). */
  function Filter<T>(s: seq<T>, p: T -> bool): (r: seq<T>)
    ensures |r| <= |s|
    ensures forall i :: 0 <= i < |r| ==> r[i] in s && p(r[i])
    ensures forall i :: 0 <= i < |s| && p(s[i]) ==> s[i] in r
    ensures multiset(r) <= multiset(s)
  {
    if s == [] then []
    else
      assert s == [s[0]] + s[1..];
      if p(s[0]) then [s[0]] + Filter(s[1..], p) else Filter(s[1..], p)
  }

  /** `Filter` keeps every selected value as often as it occurs, and no other value. */
  lemma {:induction false} FilterMultiplicity<T>(s: seq<T>, p: T -> bool, x: T)
    ensures p(x) ==> multiset(Filter(s, p))[x] == multiset(s)[x]
    ensures !p(x) ==> multiset(Filter(s, p))[x] == 0
  {
    if s != [] {
      assert s == [s[0]] + s[1..];
      FilterMultiplicity(s[1..], p, x);
    }
  }

  /** Index of the first row satisfying `p` (`where(...)->first()`). */
  function FirstIndex<T>(s: seq<T>, p: T -> bool): (r: Option<nat>)
    ensures r.Some? ==> r.value < |s| && p(s[r.value])
    ensures r.Some? ==> forall j :: 0 <= j < r.value ==> !p(s[j])
    ensures r.None? <==> forall j :: 0 <= j < |s| ==> !p(s[j])
  {
    if s == [] then None
    else if p(s[0]) then Some(0)
    else match FirstIndex(s[1..], p)
      case None => None
      case Some(k) => Some(k + 1)
  }

  /** Two rows-sequences on which `p` agrees position by position have the same first match. */
  lemma {:induction false} FirstIndexRespectsAgreement<T>(s: seq<T>, t: seq<T>, p: T -> bool)
    requires |s| == |t|
    requires forall j :: 0 <= j < |s| ==> p(s[j]) == p(t[j])
    ensures FirstIndex(s, p) == FirstIndex(t, p)
  {
    if s != [] {
      FirstIndexRespectsAgreement(s[1..], t[1..], p);
    }
  }

  /** Two sequences with the same multiset hold the same elements. */
  lemma SameElements<T>(a: seq<T>, b: seq<T>)
    requires multiset(a) == multiset(b)
    ensures forall i :: 0 <= i < |a| ==> a[i] in b
  {
    forall i | 0 <= i < |a|
      ensures a[i] in b
    {
      assert a[i] in multiset(a);
    }
  }

  /** Number of rows satisfying `p` (`where(...)->count()`). */
  function Count<T>(s: seq<T>, p: T -> bool): (n: nat)
    ensures n <= |s|
  {
    if s == [] then 0 else (if p(s[0]) then 1 else 0) + Count(s[1..], p)
  }

  /** `count()` after a `where` is the number of rows the `where` selects. */
  lemma {:induction false} CountIsFilterLength<T>(s: seq<T>, p: T -> bool)
    ensures Count(s, p) == |Filter(s, p)|
  {
    if s != [] {
      CountIsFilterLength(s[1..], p);
    }
  }

  /** Counting over a concatenation adds the counts of the parts. */
  lemma {:induction false} CountAppend<T>(s: seq<T>, t: seq<T>, p: T -> bool)
    ensures Count(s + t, p) == Count(s, p) + Count(t, p)
  {
    if s != [] {
      assert (s + t)[1..] == s[1..] + t;
      CountAppend(s[1..], t, p);
    } else {
      assert s + t == t;
    }
  }

  /** Nothing is counted when no row satisfies the predicate. */
  lemma {:induction false} CountNone<T>(s: seq<T>, p: T -> bool)
    requires forall i :: 0 <= i < |s| ==> !p(s[i])
    ensures Count(s, p) == 0
  {
    if s != [] {
      CountNone(s[1..], p);
    }
  }

  predicate IsAsciiLower(c: char) { 'a' <= c <= 'z' }
  predicate IsAsciiUpper(c: char) { 'A' <= c <= 'Z' }
  predicate IsAsciiDigit(c: char) { '0' <= c <= '9' }
  predicate IsAlnum(c: char) { IsAsciiLower(c) || IsAsciiUpper(c) || IsAsciiDigit(c) }

  /** `strtoupper` on one character: only ASCII letters change. */
  function ToUpper(c: char): char
  {
    if IsAsciiLower(c) then (c as int - 'a' as int + 'A' as int) as char else c
  }

  /** `strtoupper`, which since PHP 8.2 maps only the ASCII letters. */
  function Upper(s: string): (r: string)
    ensures |r| == |s|
    ensures forall i :: 0 <= i < |s| ==> r[i] == ToUpper(s[i])
  {
    if s == [] then [] else [ToUpper(s[0])] + Upper(s[1..])
  }

  /** Upper-casing twice is upper-casing once, so an upper-case code is its own normal form. */
  lemma UpperIdempotent(s: string)
    ensures Upper(Upper(s)) == Upper(s)
  {
    assert forall i :: 0 <= i < |s| ==> Upper(Upper(s))[i] == Upper(s)[i];
  }

  /** A string drawn by `Str::random(6)`: six characters from `[A-Za-z0-9]`. */
  type RandomToken = s: string | |s| == 6 && forall i :: 0 <= i < |s| ==> IsAlnum(s[i])
    witness "AAAAAA"

  /** Six characters, each an upper-case ASCII letter or a digit. */
  predicate IsUpperAlnumCode(s: string)
  {
    |s| == 6 && forall i :: 0 <= i < |s| ==> IsAsciiUpper(s[i]) || IsAsciiDigit(s[i])
  }

  /** `strtoupper(Str::random(6))` is always a six-character upper-case alphanumeric code. */
  lemma {:induction false} UpperOfRandomToken(t: RandomToken)
    ensures IsUpperAlnumCode(Upper(t))
  {
    forall i | 0 <= i < 6
      ensures IsAsciiUpper(Upper(t)[i]) || IsAsciiDigit(Upper(t)[i])
    {
      assert IsAlnum(t[i]);
    }
  }
}
