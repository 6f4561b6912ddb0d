/** Sequence functions shared by the models: filtering, prefixes and sorting by an integer key. */
module Sequences {

  /** The elements of s that satisfy p, in order. */
  function Filter<T(!new)>(s: seq<T>, p: T -> bool): (r: seq<T>)
    ensures forall e :: e in r <==> e in s && p(e)
    ensures |r| <= |s|
  {
    if s == [] then []
    else
      var rest := Filter(s[..|s| - 1], p);
      assert s == s[..|s| - 1] + [s[|s| - 1]];
      if p(s[|s| - 1]) then rest + [s[|s| - 1]] else rest
  }

  lemma AppendLast<T>(a: seq<T>, b: seq<T>)
    requires b != []
    ensures (a + b)[..|a + b| - 1] == a + b[..|b| - 1] && (a + b)[|a + b| - 1] == b[|b| - 1]
  {
  }

  lemma AppendMore<T>(a: seq<T>, b: seq<T>, x: T)
    ensures (a + b) + [x] == a + (b + [x])
  {
  }

  lemma {:induction false} FilterConcat<T(!new)>(a: seq<T>, b: seq<T>, p: T -> bool)
    ensures Filter(a + b, p) == Filter(a, p) + Filter(b, p)
  {
    if b == [] {
      assert a + b == a;
    } else {
      var init := b[..|b| - 1];
      FilterConcat(a, init, p);
      AppendLast(a, b);
      AppendMore(Filter(a, p), Filter(init, p), b[|b| - 1]);
    }
  }

  lemma {:induction false} FilterNone<T(!new)>(s: seq<T>, p: T -> bool)
    requires forall e :: e in s ==> !p(e)
    ensures Filter(s, p) == []
  {
    if s != [] {
      FilterNone(s[..|s| - 1], p);
    }
  }

  lemma {:induction false} FilterAll<T(!new)>(s: seq<T>, p: T -> bool)
    requires forall e :: e in s ==> p(e)
    ensures Filter(s, p) == s
  {
    if s != [] {
      FilterAll(s[..|s| - 1], p);
    }
  }

  /** Filtering twice keeps what passes both tests. */
  lemma {:induction false} FilterFilter<T(!new)>(s: seq<T>, p: T -> bool, q: T -> bool, both: T -> bool)
    requires forall e :: e in s ==> (both(e) <==> p(e) && q(e))
    ensures Filter(Filter(s, p), q) == Filter(s, both)
  {
    if s != [] {
      var init := s[..|s| - 1];
      FilterFilter(init, p, q, both);
      if p(s[|s| - 1]) {
        FilterConcat(Filter(init, p), [s[|s| - 1]], q);
        assert Filter([s[|s| - 1]], q) == if q(s[|s| - 1]) then [s[|s| - 1]] else [];
      }
    }
  }

  /** If p is q or r, and no q comes after an r, then filtering by p gives the q part and then the r part. */
  lemma {:induction false} FilterSplit<T(!new)>(s: seq<T>, p: T -> bool, q: T -> bool, r: T -> bool)
    requires forall e :: p(e) <==> q(e) || r(e)
    requires forall e :: !(q(e) && r(e))
    requires forall i, j :: 0 <= i < j < |s| ==> !(r(s[i]) && q(s[j]))
    ensures Filter(s, p) == Filter(s, q) + Filter(s, r)
  {
    if s != [] {
      var init, last := s[..|s| - 1], s[|s| - 1];
      FilterSplit(init, p, q, r);
      if q(last) {
        forall e | e in init ensures !r(e) {
        }
        FilterNone(init, r);
        assert Filter(s, p) == Filter(init, q) + [] + [last];
      }
    }
  }

  /** A test passed by exactly the first n elements keeps those. */
  lemma {:induction false} FilterCut<T(!new)>(s: seq<T>, p: T -> bool, n: nat)
    requires n <= |s|
    requires forall i :: 0 <= i < |s| ==> (p(s[i]) <==> i < n)
    ensures Filter(s, p) == s[..n]
  {
    if n < |s| {
      FilterCut(s[..|s| - 1], p, n);
      assert s[..|s| - 1][..n] == s[..n];
    } else {
      FilterAll(s, p);
    }
  }

  /** Two tests that agree on s select the same elements. */
  lemma {:induction false} FilterCongruence<T(!new)>(s: seq<T>, p: T -> bool, q: T -> bool)
    requires forall e :: e in s ==> (p(e) <==> q(e))
    ensures Filter(s, p) == Filter(s, q)
  {
    if s != [] {
      FilterCongruence(s[..|s| - 1], p, q);
    }
  }

  /** The first n elements, or all of them. */
  function Take<T>(s: seq<T>, n: nat): seq<T> {
    if |s| <= n then s else s[..n]
  }

  ghost predicate Increasing<T(!new)>(s: seq<T>, key: T -> int) {
    forall i, j :: 0 <= i < j < |s| ==> key(s[i]) < key(s[j])
  }

  lemma {:induction false} FilterIncreasing<T(!new)>(s: seq<T>, p: T -> bool, key: T -> int)
    requires Increasing(s, key)
    ensures Increasing(Filter(s, p), key)
  {
    if s != [] {
      var init := s[..|s| - 1];
      FilterIncreasing(init, p, key);
      var rest := Filter(init, p);
      forall e | e in rest ensures key(e) < key(s[|s| - 1]) {
        assert e in init;
      }
    }
  }

  /** Insertion of x before the first element with a larger key. */
  function Insert<T>(x: T, s: seq<T>, key: T -> int): (r: seq<T>)
    ensures multiset(r) == multiset(s) + multiset{x} && |r| == |s| + 1
  {
    if s == [] then [x]
    else if key(x) <= key(s[0]) then
      [x] + s
    else
      assert s == [s[0]] + s[1..];
      [s[0]] + Insert(x, s[1..], key)
  }

  /** sort.Slice by an integer key. */
  function SortBy<T>(s: seq<T>, key: T -> int): (r: seq<T>)
    ensures multiset(r) == multiset(s) && |r| == |s|
  {
    if s == [] then []
    else
      assert s == [s[0]] + s[1..];
      Insert(s[0], SortBy(s[1..], key), key)
  }

  ghost predicate Sorted<T(!new)>(s: seq<T>, key: T -> int) {
    forall i, j :: 0 <= i < j < |s| ==> key(s[i]) <= key(s[j])
  }

  lemma {:induction false} InsertSorted<T(!new)>(x: T, s: seq<T>, key: T -> int)
    requires Sorted(s, key)
    ensures Sorted(Insert(x, s, key), key)
  {
    if s != [] && key(x) > key(s[0]) {
      InsertSorted(x, s[1..], key);
      var r := Insert(x, s[1..], key);
      assert s == [s[0]] + s[1..];
      forall e | e in r ensures key(s[0]) <= key(e) {
        InsertedFrom(x, s[1..], key, e);
      }
    }
  }

  lemma InsertedFrom<T(!new)>(x: T, s: seq<T>, key: T -> int, e: T)
    requires e in Insert(x, s, key)
    ensures e == x || e in s
  {
    assert e in multiset(Insert(x, s, key));
  }

  lemma {:induction false} SortBySorted<T(!new)>(s: seq<T>, key: T -> int)
    ensures Sorted(SortBy(s, key), key)
  {
    if s != [] {
      SortBySorted(s[1..], key);
      InsertSorted(s[0], SortBy(s[1..], key), key);
    }
  }

  lemma SameLast<T(!new)>(a: seq<T>, b: seq<T>, key: T -> int)
    requires Sorted(a, key) && Increasing(b, key)
    requires multiset(a) == multiset(b) && |a| == |b| > 0
    ensures a[|a| - 1] == b[|b| - 1]
  {
    var x, y := a[|a| - 1], b[|b| - 1];
    assert y in multiset(a) && x in multiset(b);
    var i :| 0 <= i < |a| && a[i] == y;
    var j :| 0 <= j < |b| && b[j] == x;
    assert key(y) <= key(x);
    if j < |b| - 1 {
      assert key(b[j]) < key(b[|b| - 1]);
    }
  }

  lemma ButLast<T>(a: seq<T>, b: seq<T>)
    requires multiset(a) == multiset(b) && |a| == |b| > 0 && a[|a| - 1] == b[|b| - 1]
    ensures multiset(a[..|a| - 1]) == multiset(b[..|b| - 1])
  {
    var x := [a[|a| - 1]];
    assert a == a[..|a| - 1] + x && b == b[..|b| - 1] + x;
    assert multiset(a[..|a| - 1]) == multiset(a) - multiset(x);
    assert multiset(b[..|b| - 1]) == multiset(b) - multiset(x);
  }

  lemma SameLength<T>(a: seq<T>, b: seq<T>)
    requires multiset(a) == multiset(b)
    ensures |a| == |b|
  {
    assert |multiset(a)| == |a| && |multiset(b)| == |b|;
  }

  /** A sorted arrangement of an increasing sequence is that sequence. */
  lemma {:induction false} SortedPermutation<T(!new)>(a: seq<T>, b: seq<T>, key: T -> int)
    requires Sorted(a, key) && Increasing(b, key)
    requires multiset(a) == multiset(b)
    ensures a == b
  {
    SameLength(a, b);
    if a != [] {
      SameLast(a, b, key);
      ButLast(a, b);
      SortedPermutation(a[..|a| - 1], b[..|b| - 1], key);
      assert a == a[..|a| - 1] + [a[|a| - 1]] == b;
    }
  }

  /** Sorting any arrangement of an increasing sequence restores that sequence. */
  lemma SortRestores<T(!new)>(s: seq<T>, increasing: seq<T>, key: T -> int)
    requires Increasing(increasing, key)
    requires multiset(s) == multiset(increasing)
    ensures SortBy(s, key) == increasing
  {
    SortBySorted(s, key);
    var r := SortBy(s, key);
    SortedPermutation(r, increasing, key);
  }

  lemma TakeIncreasing<T(!new)>(s: seq<T>, n: nat, key: T -> int)
    requires Increasing(s, key) && n <= |s|
    ensures Increasing(s[..n], key)
  {
  }

  /** Truncating b first does not change what a + b keeps. */
  lemma TakeConcat<T>(a: seq<T>, b: seq<T>, n: nat)
    ensures Take(a + Take(b, n), n) == Take(a + b, n)
    ensures |a + Take(b, n)| <= |a + b| && a + Take(b, n) == (a + b)[..|a + Take(b, n)|]
    ensures |a + Take(b, n)| <= n ==> a + Take(b, n) == Take(a + b, n)
  {
    if |b| > n {
      assert a + b[..n] == (a + b)[..|a| + n];
    } else {
      assert a + b == (a + b)[..|a + b|];
    }
  }

  /** Sort when there are more than n items, then keep the first n. */
  function SortTruncate<T>(items: seq<T>, n: nat, key: T -> int): seq<T> {
    if |items| > n then SortBy(items, key)[..n] else items
  }

  /** Truncating after every page loses nothing that a single final truncation would keep. */
  lemma TruncateEarly<T(!new)>(items: seq<T>, a: seq<T>, b: seq<T>, n: nat, key: T -> int)
    requires Increasing(a + b, key)
    requires multiset(items) == multiset(a + Take(b, n))
    ensures multiset(SortTruncate(items, n, key)) == multiset(Take(a + b, n))
  {
    var kept := a + Take(b, n);
    TakeConcat(a, b, n);
    SameLength(items, kept);
    if |items| > n {
      TakeIncreasing(a + b, |kept|, key);
      SortRestores(items, kept, key);
    }
  }

  function Map<T, U>(s: seq<T>, f: T -> U): (r: seq<U>)
    ensures |r| == |s|
    ensures forall i :: 0 <= i < |s| ==> r[i] == f(s[i])
  {
    seq(|s|, i requires 0 <= i < |s| => f(s[i]))
  }

  // ----- First occurrences -----

  predicate Distinct<T(==)>(s: seq<T>) {
    forall i, j :: 0 <= i < j < |s| ==> s[i] != s[j]
  }

  /** The elements of s, each at its first occurrence. */
  function Firsts<T(==, !new)>(s: seq<T>): (r: seq<T>)
    ensures forall x :: x in r <==> x in s
  {
    if s == [] then []
    else
      var init, last := Firsts(s[..|s| - 1]), s[|s| - 1];
      assert s == s[..|s| - 1] + [last];
      if last in init then init else init + [last]
  }

  lemma {:induction false} FirstsDistinct<T(!new)>(s: seq<T>)
    ensures Distinct(Firsts(s))
  {
    if s != [] {
      FirstsDistinct(s[..|s| - 1]);
    }
  }

  /** Index of the first occurrence of x. */
  function FirstIndex<T(==)>(s: seq<T>, x: T): (k: nat)
    requires x in s
    ensures k < |s| && s[k] == x && forall i :: 0 <= i < k ==> s[i] != x
  {
    if s[0] == x then 0
    else
      assert s == [s[0]] + s[1..];
      1 + FirstIndex(s[1..], x)
  }

  lemma FirstIndexOfPrefix<T(!new)>(s: seq<T>, n: nat, x: T)
    requires n <= |s| && x in s[..n]
    ensures x in s && FirstIndex(s, x) == FirstIndex(s[..n], x)
  {
    var k := FirstIndex(s[..n], x);
    assert s[k] == x && forall i :: 0 <= i < k ==> s[i] == s[..n][i];
  }

  lemma {:induction false} FirstsInOrder<T(!new)>(s: seq<T>, x: nat, y: nat)
    requires x < y < |Firsts(s)|
    ensures FirstIndex(s, Firsts(s)[x]) < FirstIndex(s, Firsts(s)[y])
  {
    var n := |s| - 1;
    var init, r := Firsts(s[..n]), Firsts(s);
    assert init[x] in s[..n];
    FirstIndexOfPrefix(s, n, r[x]);
    if y < |init| {
      FirstsInOrder(s[..n], x, y);
      assert init[y] in s[..n];
      FirstIndexOfPrefix(s, n, r[y]);
    } else {
      assert r[y] !in s[..n];
      assert forall i :: 0 <= i < n ==> s[i] == s[..n][i];
    }
  }
}
