/** Vocabulary shared by every handler of the tracker: optional values, the
    outcome of a request handler, roles and priorities, and the list helpers
    (filter, lookup by id, ordering, trimming) that the store queries and the
    dashboards' filters are built from. */
module Common {

  datatype Option<T> = None | Some(value: T)

  /** The error answers of the request handlers. */
  datatype Failure = NotFound | Forbidden | BadRequest | ServerError

  function StatusCode(f: Failure): (code: nat)
    ensures 400 <= code < 600
  {
    match f
    case NotFound => 404
    case Forbidden => 403
    case BadRequest => 400
    case ServerError => 500
  }

  datatype Result<T> = Ok(value: T) | Err(failure: Failure)

  /** The account roles. */
  datatype Role = Admin | Manager | Developer | Tester

  /** Priority of bugs, projects and notifications. */
  datatype Priority = Low | Medium | High | Critical

  /** The authenticated caller: the identity and role the authentication
      middleware attaches to a request. */
  datatype Caller = Caller(id: nat, role: Role, name: string)

  /** JavaScript truthiness of an optional string taken from a request body:
      absent and empty are both falsy. */
  predicate Truthy(s: Option<string>)
  {
    s.Some? && s.value != ""
  }

  /** The JavaScript idiom `s || fallback`. */
  function Or(s: Option<string>, fallback: string): string
  {
    if Truthy(s) then s.value else fallback
  }

  // ---------------------------------------------------------------------
  // Order-preserving filter, the `Array.prototype.filter` of the source
  // ---------------------------------------------------------------------

  function Filter<T(!new)>(s: seq<T>, p: T -> bool): (r: seq<T>)
    ensures |r| <= |s|
    ensures forall x :: x in r <==> x in s && p(x)
  {
    if s == [] then []
    else
      var init := Filter(s[..|s| - 1], p);
      assert forall x :: x in s <==> x in s[..|s| - 1] || x == s[|s| - 1];
      if p(s[|s| - 1]) then init + [s[|s| - 1]] else init
  }

  /** Number of elements satisfying `p`: `s.filter(p).length`. */
  function Count<T(!new)>(s: seq<T>, p: T -> bool): nat
  {
    |Filter(s, p)|
  }

  /** Nothing is counted exactly when nothing passes. */
  lemma CountZeroIff<T(!new)>(s: seq<T>, p: T -> bool)
    ensures Count(s, p) == 0 <==> forall i :: 0 <= i < |s| ==> !p(s[i])
  {
    var f := Filter(s, p);
    if f != [] {
      assert f[0] in f;
    } else {
      forall i | 0 <= i < |s| ensures !p(s[i]) {
        assert s[i] in s;
      }
    }
  }

  lemma {:induction false} FilterConcat<T(!new)>(a: seq<T>, b: seq<T>, p: T -> bool)
    ensures Filter(a + b, p) == Filter(a, p) + Filter(b, p)
    decreases |b|
  {
    if b == [] {
      assert a + b == a;
    } else {
      var b' := b[..|b| - 1];
      assert (a + b)[..|a + b| - 1] == a + b';
      FilterConcat(a, b', p);
    }
  }

  /** Extending the scanned prefix by one element adds that element to the
      filtered result exactly when it passes. */
  lemma FilterSnoc<T(!new)>(s: seq<T>, i: nat, p: T -> bool)
    requires i < |s|
    ensures Filter(s[..i + 1], p) == Filter(s[..i], p) + (if p(s[i]) then [s[i]] else [])
  {
    assert s[..i + 1][..i] == s[..i];
  }

  /** A filter whose predicate holds everywhere returns the whole list. */
  lemma {:induction false} FilterAll<T(!new)>(s: seq<T>, p: T -> bool)
    requires forall x :: x in s ==> p(x)
    ensures Filter(s, p) == s
  {
    if s != [] {
      var init := s[..|s| - 1];
      assert forall x :: x in init ==> x in s;
      FilterAll(init, p);
      assert init + [s[|s| - 1]] == s;
    }
  }

  /** A filter whose predicate holds nowhere returns nothing. */
  lemma {:induction false} FilterNone<T(!new)>(s: seq<T>, p: T -> bool)
    requires forall x :: x in s ==> !p(x)
    ensures Filter(s, p) == []
  {
    if s != [] {
      var init := s[..|s| - 1];
      assert forall x :: x in init ==> x in s;
      FilterNone(init, p);
    }
  }

  /** Filters with predicates that agree on the list give the same result. */
  lemma {:induction false} FilterCongruent<T(!new)>(s: seq<T>, p: T -> bool, q: T -> bool)
    requires forall x :: x in s ==> p(x) == q(x)
    ensures Filter(s, p) == Filter(s, q)
  {
    if s != [] {
      var init := s[..|s| - 1];
      assert forall x :: x in init ==> x in s;
      FilterCongruent(init, p, q);
    }
  }

  /** Two lists of the same length that agree wherever either element
      passes filter to the same list. */
  lemma FilterPointwise<T(!new)>(a: seq<T>, b: seq<T>, p: T -> bool)
    requires |a| == |b|
    requires forall i :: 0 <= i < |a| ==> p(a[i]) == p(b[i]) && (p(a[i]) ==> a[i] == b[i])
    ensures Filter(a, p) == Filter(b, p)
  {
    AgreeFromPointwise(a, b, p, |a|);
    FilterAgree(a, b, p, |a|);
    assert a[..|a|] == a && b[..|b|] == b;
  }

  /** The first `k` elements of the two lists agree under `p`. */
  ghost predicate AgreeUpTo<T>(a: seq<T>, b: seq<T>, p: T -> bool, k: nat)
    requires k <= |a| == |b|
  {
    k == 0 || (AgreeUpTo(a, b, p, k - 1) && p(a[k - 1]) == p(b[k - 1]) && (p(a[k - 1]) ==> a[k - 1] == b[k - 1]))
  }

  lemma {:induction false} AgreeFromPointwise<T>(a: seq<T>, b: seq<T>, p: T -> bool, k: nat)
    requires k <= |a| == |b|
    requires forall i :: 0 <= i < |a| ==> p(a[i]) == p(b[i]) && (p(a[i]) ==> a[i] == b[i])
    ensures AgreeUpTo(a, b, p, k)
  {
    if k > 0 {
      AgreeFromPointwise(a, b, p, k - 1);
    }
  }

  lemma {:induction false} FilterAgree<T(!new)>(a: seq<T>, b: seq<T>, p: T -> bool, k: nat)
    requires k <= |a| == |b| && AgreeUpTo(a, b, p, k)
    ensures Filter(a[..k], p) == Filter(b[..k], p)
  {
    if k > 0 {
      FilterAgree(a, b, p, k - 1);
      FilterSnocAgree(a, b, p, k - 1);
    }
  }

  /** Extending two prefixes that filter alike by elements that agree
      keeps them filtering alike. */
  lemma FilterSnocAgree<T(!new)>(a: seq<T>, b: seq<T>, p: T -> bool, i: nat)
    requires i < |a| == |b| && Filter(a[..i], p) == Filter(b[..i], p)
    requires p(a[i]) == p(b[i]) && (p(a[i]) ==> a[i] == b[i])
    ensures Filter(a[..i + 1], p) == Filter(b[..i + 1], p)
  {
    FilterSnoc(a, i, p);
    FilterSnoc(b, i, p);
  }

  // ---------------------------------------------------------------------
  // Records keyed by id, kept in the store's natural (insertion) order
  // ---------------------------------------------------------------------

  /** Position of the record whose key is `k` (`findById`). */
  function Find<T>(s: seq<T>, key: T -> nat, k: nat): (r: Option<nat>)
    ensures r.Some? ==> r.value < |s| && key(s[r.value]) == k
    ensures r.None? <==> forall i :: 0 <= i < |s| ==> key(s[i]) != k
  {
    if s == [] then None
    else if key(s[0]) == k then Some(0)
    else
      match Find(s[1..], key, k)
      case None =>
        assert forall i :: 1 <= i < |s| ==> s[i] == s[1..][i - 1];
        None
      case Some(j) => Some(j + 1)
  }

  /** No two records share a key. */
  ghost predicate DistinctKeys<T>(s: seq<T>, key: T -> nat)
  {
    forall i, j :: 0 <= i < j < |s| ==> key(s[i]) != key(s[j])
  }

  /** Every key is below the next key the store will hand out. */
  ghost predicate KeysBelow<T>(s: seq<T>, key: T -> nat, next: nat)
  {
    forall i :: 0 <= i < |s| ==> key(s[i]) < next
  }

  /** Creation times never decrease along the store's natural order. */
  ghost predicate Chronological<T>(s: seq<T>, time: T -> nat)
  {
    forall i, j :: 0 <= i < j < |s| ==> time(s[i]) <= time(s[j])
  }

  /** The latest creation time in the store, 0 for an empty store. */
  function Latest<T>(s: seq<T>, time: T -> nat): (t: nat)
    ensures forall i :: 0 <= i < |s| ==> time(s[i]) <= t
  {
    if s == [] then 0
    else
      var rest := Latest(s[..|s| - 1], time);
      assert forall i :: 0 <= i < |s| - 1 ==> s[i] == s[..|s| - 1][i];
      if time(s[|s| - 1]) > rest then time(s[|s| - 1]) else rest
  }

  function RemoveAt<T>(s: seq<T>, i: nat): (r: seq<T>)
    requires i < |s|
    ensures |r| == |s| - 1
    ensures forall k :: 0 <= k < i ==> r[k] == s[k]
    ensures forall k :: i <= k < |r| ==> r[k] == s[k + 1]
  {
    s[..i] + s[i + 1..]
  }

  /** The store invariants survive removing one record. */
  lemma RemoveAtKeeps<T>(s: seq<T>, i: nat, key: T -> nat, time: T -> nat, next: nat)
    requires i < |s|
    requires DistinctKeys(s, key) && KeysBelow(s, key, next) && Chronological(s, time)
    ensures DistinctKeys(RemoveAt(s, i), key)
    ensures KeysBelow(RemoveAt(s, i), key, next)
    ensures Chronological(RemoveAt(s, i), time)
  {
    var r := RemoveAt(s, i);
    forall a, b | 0 <= a < b < |r|
      ensures key(r[a]) != key(r[b]) && time(r[a]) <= time(r[b])
    {
      var a' := if a < i then a else a + 1;
      var b' := if b < i then b else b + 1;
      assert r[a] == s[a'] && r[b] == s[b'] && a' < b';
    }
  }

  /** The store invariants survive replacing a record by one with the same
      key and creation time. */
  lemma ReplaceKeeps<T>(s: seq<T>, i: nat, x: T, key: T -> nat, time: T -> nat, next: nat)
    requires i < |s| && key(x) == key(s[i]) && time(x) == time(s[i])
    requires DistinctKeys(s, key) && KeysBelow(s, key, next) && Chronological(s, time)
    ensures DistinctKeys(s[i := x], key)
    ensures KeysBelow(s[i := x], key, next)
    ensures Chronological(s[i := x], time)
  {
  }

  /** The store invariants survive appending a record created now with the
      next key. */
  lemma AppendKeeps<T>(s: seq<T>, x: T, key: T -> nat, time: T -> nat, next: nat)
    requires DistinctKeys(s, key) && KeysBelow(s, key, next) && Chronological(s, time)
    requires key(x) == next && time(x) >= Latest(s, time)
    ensures DistinctKeys(s + [x], key)
    ensures KeysBelow(s + [x], key, next + 1)
    ensures Chronological(s + [x], time)
  {
  }

  /** A query's natural order reversed: what a descending sort on creation
      time returns from a chronological store. */
  function Reverse<T>(s: seq<T>): (r: seq<T>)
    ensures |r| == |s|
    ensures forall i :: 0 <= i < |s| ==> r[i] == s[|s| - 1 - i]
  {
    if s == [] then []
    else
      var rest := Reverse(s[1..]);
      assert forall i :: 0 <= i < |s| - 1 ==> rest[i] == s[|s| - 1 - i];
      rest + [s[0]]
  }

  /** Reversing a list with one more element at the end puts that element
      first. */
  lemma ReverseSnoc<T>(s: seq<T>, x: T)
    ensures Reverse(s + [x]) == [x] + Reverse(s)
  {
    var l, r := Reverse(s + [x]), [x] + Reverse(s);
    forall i | 0 <= i < |l| ensures l[i] == r[i] {
      if i > 0 { assert r[i] == Reverse(s)[i - 1] == s[|s| - i]; }
    }
  }

  /** Creation times never increase along the list. */
  ghost predicate NewestFirst<T>(s: seq<T>, time: T -> nat)
  {
    forall i, j :: 0 <= i < j < |s| ==> time(s[i]) >= time(s[j])
  }

  /** A filtered chronological list is chronological. */
  lemma {:induction false} FilterChronological<T(!new)>(s: seq<T>, p: T -> bool, time: T -> nat)
    requires Chronological(s, time)
    ensures Chronological(Filter(s, p), time)
  {
    if s != [] {
      var init := s[..|s| - 1];
      var last := s[|s| - 1];
      assert Chronological(init, time);
      FilterChronological(init, p, time);
      var f := Filter(init, p);
      forall x | x in f ensures time(x) <= time(last) {
        var k :| 0 <= k < |init| && init[k] == x;
        assert init[k] == s[k];
      }
      if p(last) {
        var r := f + [last];
        forall i, j | 0 <= i < j < |r| ensures time(r[i]) <= time(r[j]) {
          if j == |r| - 1 { assert r[i] in f; }
          else { assert r[i] == f[i] && r[j] == f[j]; }
        }
      }
    }
  }

  /** Reversing a chronological list puts the newest first. */
  lemma ReverseNewestFirst<T>(s: seq<T>, time: T -> nat)
    requires Chronological(s, time)
    ensures NewestFirst(Reverse(s), time)
  {
    var r := Reverse(s);
    forall i, j | 0 <= i < j < |r| ensures time(r[i]) >= time(r[j]) {
      assert r[i] == s[|s| - 1 - i] && r[j] == s[|s| - 1 - j];
    }
  }

  lemma ReverseMembers<T>(s: seq<T>)
    ensures forall x :: x in Reverse(s) <==> x in s
  {
    var r := Reverse(s);
    forall x | x in s ensures x in r {
      var k :| 0 <= k < |s| && s[k] == x;
      assert r[|s| - 1 - k] == x;
    }
  }

  /** `skip(skip).limit(count)` on a query result. */
  function Page<T>(s: seq<T>, skip: nat, count: nat): (r: seq<T>)
    ensures |r| <= count
    ensures skip <= |s| ==> r == s[skip..][..if count <= |s| - skip then count else |s| - skip]
    ensures skip >= |s| ==> r == []
  {
    var rest := if skip <= |s| then s[skip..] else [];
    if count <= |rest| then rest[..count] else rest
  }

  // ---------------------------------------------------------------------
  // `String.prototype.trim`
  // ---------------------------------------------------------------------

  /** The white space and line terminators JavaScript's `trim` removes. */
  predicate IsSpace(c: char)
  {
    c == ' ' || c == '\t' || c == '\n' || c == '\r' || c == '\U{B}' || c == '\U{C}'
    || c == '\U{A0}' || c == '\U{1680}' || ('\U{2000}' <= c <= '\U{200A}')
    || c == '\U{2028}' || c == '\U{2029}' || c == '\U{202F}' || c == '\U{205F}'
    || c == '\U{3000}' || c == '\U{FEFF}'
  }

  function TrimStart(s: string): string
  {
    if s != [] && IsSpace(s[0]) then TrimStart(s[1..]) else s
  }

  function TrimEnd(s: string): string
  {
    if s != [] && IsSpace(s[|s| - 1]) then TrimEnd(s[..|s| - 1]) else s
  }

  function Trim(s: string): string
  {
    TrimEnd(TrimStart(s))
  }

  ghost predicate AllSpace(s: string)
  {
    forall i :: 0 <= i < |s| ==> IsSpace(s[i])
  }

  /** TrimStart drops exactly a leading run of white space. */
  lemma {:induction false} TrimStartShape(s: string) returns (k: nat)
    ensures k <= |s| && TrimStart(s) == s[k..] && AllSpace(s[..k])
    ensures k < |s| ==> !IsSpace(s[k])
  {
    if s != [] && IsSpace(s[0]) {
      var k' := TrimStartShape(s[1..]);
      k := k' + 1;
      assert s[1..][k'..] == s[k..];
      forall i | 0 <= i < k ensures IsSpace(s[i]) {
        if i > 0 { assert s[i] == s[1..][..k'][i - 1]; }
      }
    } else {
      k := 0;
    }
  }

  /** TrimEnd drops exactly a trailing run of white space. */
  lemma {:induction false} TrimEndShape(s: string) returns (k: nat)
    ensures k <= |s| && TrimEnd(s) == s[..k] && AllSpace(s[k..])
    ensures 0 < k ==> !IsSpace(s[k - 1])
  {
    if s != [] && IsSpace(s[|s| - 1]) {
      var init := s[..|s| - 1];
      k := TrimEndShape(init);
      assert init[..k] == s[..k];
      forall i | k <= i < |s| ensures IsSpace(s[i]) {
        if i < |s| - 1 { assert s[i] == init[k..][i - k]; }
      }
    } else {
      k := |s|;
      assert s[..|s|] == s;
    }
  }

  /** `s.trim()` is the slice of `s` between a leading and a trailing run of
      white space, and starts and ends with a character that is not white
      space. */
  lemma TrimShape(s: string) returns (i: nat, j: nat)
    ensures i <= j <= |s| && Trim(s) == s[i..j]
    ensures AllSpace(s[..i]) && AllSpace(s[j..])
    ensures i < j ==> !IsSpace(s[i]) && !IsSpace(s[j - 1])
  {
    i := TrimStartShape(s);
    var k := TrimEndShape(s[i..]);
    j := i + k;
    assert s[i..][..k] == s[i..j];
    forall m | j <= m < |s| ensures IsSpace(s[m]) {
      assert s[m] == s[i..][k..][m - j];
    }
    if i < j {
      assert s[j - 1] == s[i..][k - 1];
    }
  }

  /** `s.trim()` is empty exactly when `s` is nothing but white space. */
  lemma TrimEmptyIff(s: string)
    ensures Trim(s) == [] <==> AllSpace(s)
  {
    var i, j := TrimShape(s);
    if Trim(s) == [] {
      forall k | 0 <= k < |s| ensures IsSpace(s[k]) {
        if k < i { assert s[k] == s[..i][k]; } else { assert s[k] == s[j..][k - j]; }
      }
    }
  }

  /** Trimming twice is trimming once. */
  lemma TrimIdempotent(s: string)
    ensures Trim(Trim(s)) == Trim(s)
  {
    var i, j := TrimShape(s);
    var t := Trim(s);
    if t != [] {
      assert t[0] == s[i] && t[|t| - 1] == s[j - 1];
      assert TrimStart(t) == t;
      assert TrimEnd(t) == t;
    }
  }

  /** A page of a newest-first list is newest first and holds only
      elements of that list. */
  lemma PageNewestFirst<T>(s: seq<T>, skip: nat, count: nat, time: T -> nat)
    requires NewestFirst(s, time)
    ensures NewestFirst(Page(s, skip, count), time)
    ensures forall x :: x in Page(s, skip, count) ==> x in s
  {
    var r := Page(s, skip, count);
    if skip <= |s| {
      forall i, j | 0 <= i < j < |r| ensures time(r[i]) >= time(r[j]) {
        assert r[i] == s[skip + i] && r[j] == s[skip + j];
      }
      forall x | x in r ensures x in s {
        var k :| 0 <= k < |r| && r[k] == x;
        assert x == s[skip + k];
      }
    }
  }
}
