/** Lists as multisets, and the library sort by the unsigned UTF-8 bytes of a key. */
module Lists {
  import Utf8

  function Map<T, U>(f: T -> U, s: seq<T>): (r: seq<U>)
    ensures |r| == |s| && forall i :: 0 <= i < |s| ==> r[i] == f(s[i])
  {
    seq(|s|, i requires 0 <= i < |s| => f(s[i]))
  }

  /** Removing one element from a list. */
  function Without<T>(s: seq<T>, k: nat): (r: seq<T>)
    requires k < |s|
    ensures |r| == |s| - 1
    ensures multiset(r) == multiset(s) - multiset{s[k]}
  {
    assert s == s[..k] + [s[k]] + s[k + 1..];
    s[..k] + s[k + 1..]
  }

  lemma PrefixGrows<T>(before: seq<T>, s: seq<T>)
    requires before <= s && |before| < |s|
    ensures before + [s[|before|]] <= s
  {
  }

  lemma PrefixComplete<T>(before: seq<T>, s: seq<T>)
    requires before <= s && |before| == |s|
    ensures before == s
  {
  }

  predicate NoRepeats<T(==)>(s: seq<T>) { forall i, j :: 0 <= i < j < |s| ==> s[i] != s[j] }

  /** An element at two places counts at least twice, and the other way round. */
  lemma {:induction false} TwicePlaced<T>(s: seq<T>, e: T)
    ensures multiset(s)[e] >= 2 <==> exists i, j :: 0 <= i < j < |s| && s[i] == e && s[j] == e
  {
    if s != [] {
      assert s == [s[0]] + s[1..];
      TwicePlaced(s[1..], e);
      if s[0] == e && multiset(s)[e] >= 2 {
        assert e in multiset(s[1..]);
        var j :| 0 <= j < |s[1..]| && s[1..][j] == e;
        assert s[0] == e && s[j + 1] == e;
      }
      if exists i, j :: 0 <= i < j < |s| && s[i] == e && s[j] == e {
        var i, j :| 0 <= i < j < |s| && s[i] == e && s[j] == e;
        if i == 0 { assert s[1..][j - 1] == e; assert e in multiset(s[1..]); }
        else { assert s[1..][i - 1] == e && s[1..][j - 1] == e; }
      }
      if exists i, j :: 0 <= i < j < |s[1..]| && s[1..][i] == e && s[1..][j] == e {
        var i, j :| 0 <= i < j < |s[1..]| && s[1..][i] == e && s[1..][j] == e;
        assert s[i + 1] == e && s[j + 1] == e;
      }
    }
  }

  lemma MapWithout<T, U>(f: T -> U, s: seq<T>, k: nat)
    requires k < |s|
    ensures Map(f, Without(s, k)) == Without(Map(f, s), k)
  {
  }

  lemma RestoreElement<U>(a: multiset<U>, b: multiset<U>, e: U)
    requires e in b && a - multiset{e} <= b - multiset{e}
    ensures a <= b
  {
    forall x | x in a ensures a[x] <= b[x] {
      assert (a - multiset{e})[x] <= (b - multiset{e})[x];
    }
  }

  lemma {:induction false} MapMonotone<T, U>(f: T -> U, part: seq<T>, whole: seq<T>)
    requires multiset(part) <= multiset(whole)
    ensures multiset(Map(f, part)) <= multiset(Map(f, whole))
    decreases |part|
  {
    if part != [] {
      var e := part[0];
      assert e in multiset(part) && e in multiset(whole);
      var k :| 0 <= k < |whole| && whole[k] == e;
      MapMonotone(f, Without(part, 0), Without(whole, k));
      MapWithout(f, part, 0);
      MapWithout(f, whole, k);
      RestoreElement(multiset(Map(f, part)), multiset(Map(f, whole)), f(e));
    }
  }

  /** Pigeonhole: a list without repeats inside a list of the same length is a rearrangement of it. */
  lemma {:induction false} SameLengthIncluded<T>(part: seq<T>, whole: seq<T>)
    requires NoRepeats(part) && |part| == |whole| && forall e :: e in part ==> e in whole
    ensures multiset(part) == multiset(whole)
    decreases |part|
  {
    if part != [] {
      assert part[0] in part && part[0] in whole;
      var k :| 0 <= k < |whole| && whole[k] == part[0];
      var rest := part[1..];
      assert part == [part[0]] + rest;
      forall e | e in rest ensures e in Without(whole, k) {
        var i :| 0 <= i < |rest| && rest[i] == e;
        assert part[i + 1] == e && e in part && e != part[0];
        var j :| 0 <= j < |whole| && whole[j] == e;
        assert j != k;
        assert Without(whole, k)[if j < k then j else j - 1] == e;
      }
      SameLengthIncluded(rest, Without(whole, k));
      assert multiset(whole) == multiset(Without(whole, k)) + multiset{whole[k]};
    }
  }

  /** Pigeonhole: a list longer than a set that holds all its elements repeats one. */
  lemma {:induction false} TooLongRepeats<T>(s: seq<T>, room: set<T>)
    requires |s| > |room| && forall e :: e in s ==> e in room
    ensures !NoRepeats(s)
    decreases |s|
  {
    assert s[0] in room;
    if forall i :: 1 <= i < |s| ==> s[i] != s[0] {
      forall e | e in s[1..] ensures e in room - {s[0]} { }
      TooLongRepeats(s[1..], room - {s[0]});
      var i, j :| 0 <= i < j < |s[1..]| && s[1..][i] == s[1..][j];
      assert s[i + 1] == s[j + 1];
    }
  }

  // ---------------------------------------------------------------- sorting by key bytes

  predicate Ascending<T>(key: T -> string, s: seq<T>) {
    forall i, j :: 0 <= i < j < |s| ==> Utf8.TextBefore(key(s[i]), key(s[j]))
  }

  predicate DistinctKeys<T>(key: T -> string, s: seq<T>) {
    forall i, j :: 0 <= i < j < |s| ==> key(s[i]) != key(s[j])
  }

  function Insert<T>(key: T -> string, e: T, sorted: seq<T>): seq<T> {
    if sorted == [] || Utf8.TextBefore(key(e), key(sorted[0])) then [e] + sorted
    else [sorted[0]] + Insert(key, e, sorted[1..])
  }

  function SortBy<T>(key: T -> string, s: seq<T>): seq<T> {
    if s == [] then [] else Insert(key, s[0], SortBy(key, s[1..]))
  }

  lemma {:induction false} InsertPermutes<T>(key: T -> string, e: T, sorted: seq<T>)
    ensures multiset(Insert(key, e, sorted)) == multiset{e} + multiset(sorted)
  {
    if sorted != [] && !Utf8.TextBefore(key(e), key(sorted[0])) {
      InsertPermutes(key, e, sorted[1..]);
      assert sorted == [sorted[0]] + sorted[1..];
      assert multiset(sorted) == multiset{sorted[0]} + multiset(sorted[1..]);
      assert Insert(key, e, sorted) == [sorted[0]] + Insert(key, e, sorted[1..]);
    } else {
      assert Insert(key, e, sorted) == [e] + sorted;
    }
  }

  lemma {:induction false} SortPermutes<T>(key: T -> string, s: seq<T>)
    ensures multiset(SortBy(key, s)) == multiset(s)
    ensures |SortBy(key, s)| == |s|
  {
    if s != [] {
      SortPermutes(key, s[1..]);
      InsertPermutes(key, s[0], SortBy(key, s[1..]));
      assert s == [s[0]] + s[1..];
    }
    assert |multiset(SortBy(key, s))| == |SortBy(key, s)| && |multiset(s)| == |s|;
  }

  lemma {:induction false} InsertSorts<T>(key: T -> string, e: T, sorted: seq<T>)
    requires Ascending(key, sorted) && forall x :: x in sorted ==> key(x) != key(e)
    ensures Ascending(key, Insert(key, e, sorted))
  {
    if sorted != [] {
      var result := Insert(key, e, sorted);
      if Utf8.TextBefore(key(e), key(sorted[0])) {
        forall j | 1 <= j < |result| ensures Utf8.TextBefore(key(e), key(result[j])) {
          if j > 1 { Utf8.BeforeTransitive(Utf8.Encode(key(e)), Utf8.Encode(key(sorted[0])), Utf8.Encode(key(sorted[j - 1]))); }
        }
      } else {
        Utf8.TextOrderTotal(key(e), key(sorted[0]));
        InsertSorts(key, e, sorted[1..]);
        InsertPermutes(key, e, sorted[1..]);
        var rest := Insert(key, e, sorted[1..]);
        forall j | 0 <= j < |rest| ensures Utf8.TextBefore(key(sorted[0]), key(rest[j])) {
          assert rest[j] in multiset(rest);
        }
      }
    }
  }

  lemma {:induction false} SortSorts<T>(key: T -> string, s: seq<T>)
    requires DistinctKeys(key, s)
    ensures Ascending(key, SortBy(key, s))
  {
    if s != [] {
      SortSorts(key, s[1..]);
      SortPermutes(key, s[1..]);
      forall x | x in SortBy(key, s[1..]) ensures key(x) != key(s[0]) {
        assert x in multiset(SortBy(key, s[1..]));
        assert x in s[1..];
      }
      InsertSorts(key, s[0], SortBy(key, s[1..]));
    }
  }

  lemma AscendingHead<T>(key: T -> string, a: seq<T>, b: seq<T>)
    requires Ascending(key, a) && Ascending(key, b) && multiset(a) == multiset(b) && a != [] && b != []
    ensures a[0] == b[0]
  {
    assert a[0] in multiset(b) && b[0] in multiset(a);
    if a[0] != b[0] {
      Utf8.BeforeTransitive(Utf8.Encode(key(a[0])), Utf8.Encode(key(b[0])), Utf8.Encode(key(a[0])));
      Utf8.BeforeIrreflexive(Utf8.Encode(key(a[0])));
    }
  }

  /** An ascending list is determined by its contents. */
  lemma {:induction false} AscendingUnique<T>(key: T -> string, a: seq<T>, b: seq<T>)
    requires Ascending(key, a) && Ascending(key, b) && multiset(a) == multiset(b)
    ensures a == b
  {
    assert |multiset(a)| == |a| && |multiset(b)| == |b|;
    if a != [] {
      AscendingHead(key, a, b);
      assert a == [a[0]] + a[1..] && b == [b[0]] + b[1..];
      assert multiset(a[1..]) == multiset(a) - multiset{a[0]};
      assert multiset(b[1..]) == multiset(b) - multiset{b[0]};
      AscendingUnique(key, a[1..], b[1..]);
    }
  }

  /** The sorted list does not depend on the order of its input. */
  lemma SortIgnoresOrder<T>(key: T -> string, a: seq<T>, b: seq<T>)
    requires DistinctKeys(key, a) && DistinctKeys(key, b) && multiset(a) == multiset(b)
    ensures SortBy(key, a) == SortBy(key, b)
  {
    SortPermutes(key, a);
    SortPermutes(key, b);
    SortSorts(key, a);
    SortSorts(key, b);
    AscendingUnique(key, SortBy(key, a), SortBy(key, b));
  }

  lemma {:induction false} InsertMap<T(!new), U>(f: T -> U, key: T -> string, image: U -> string, e: T, sorted: seq<T>)
    requires forall x :: image(f(x)) == key(x)
    ensures Insert(image, f(e), Map(f, sorted)) == Map(f, Insert(key, e, sorted))
  {
    if sorted != [] && !Utf8.TextBefore(key(e), key(sorted[0])) {
      InsertMap(f, key, image, e, sorted[1..]);
      assert Map(f, sorted)[1..] == Map(f, sorted[1..]);
    }
  }

  /** Sorting commutes with any map that keeps the keys. */
  lemma {:induction false} SortMap<T(!new), U>(f: T -> U, key: T -> string, image: U -> string, s: seq<T>)
    requires forall x :: image(f(x)) == key(x)
    ensures SortBy(image, Map(f, s)) == Map(f, SortBy(key, s))
  {
    if s != [] {
      SortMap(f, key, image, s[1..]);
      assert Map(f, s)[1..] == Map(f, s[1..]);
      InsertMap(f, key, image, s[0], SortBy(key, s[1..]));
    }
  }
}
