/** Byte-wise order of strings, and sorting by it or by a string key. */
module StringOrder {
  import S = Sequences

  /** a <= b in the order of sort.Strings. */
  predicate AtOrBefore(a: string, b: string) {
    a == "" || (b != "" && (a[0] < b[0] || (a[0] == b[0] && AtOrBefore(a[1..], b[1..]))))
  }

  lemma {:induction false} Total(a: string, b: string)
    ensures AtOrBefore(a, b) || AtOrBefore(b, a)
  {
    if a != "" && b != "" {
      Total(a[1..], b[1..]);
    }
  }

  lemma {:induction false} Antisymmetric(a: string, b: string)
    requires AtOrBefore(a, b) && AtOrBefore(b, a)
    ensures a == b
  {
    if a != "" && b != "" {
      Antisymmetric(a[1..], b[1..]);
      assert a == [a[0]] + a[1..] && b == [b[0]] + b[1..];
    }
  }

  lemma {:induction false} Transitive(a: string, b: string, c: string)
    requires AtOrBefore(a, b) && AtOrBefore(b, c)
    ensures AtOrBefore(a, c)
  {
    if a != "" && a[0] == b[0] == c[0] {
      Transitive(a[1..], b[1..], c[1..]);
    }
  }

  /** A string comes before those it is a prefix of; otherwise the first difference decides. */
  lemma {:induction false} OrderMeaning(a: string, b: string)
    ensures AtOrBefore(a, b) <==> a <= b || exists k :: 0 <= k < |a| && k < |b| && a[..k] == b[..k] && a[k] < b[k]
  {
    if a != "" && b != "" {
      OrderMeaning(a[1..], b[1..]);
      if a[0] < b[0] {
        assert a[..0] == b[..0];
      } else if a[0] == b[0] {
        AfterFirst(a, b);
      }
    }
  }

  lemma AfterFirst(a: string, b: string)
    requires a != "" && b != "" && a[0] == b[0]
    ensures a <= b <==> a[1..] <= b[1..]
    ensures (exists k :: 0 <= k < |a| && k < |b| && a[..k] == b[..k] && a[k] < b[k]) <==>
            exists k :: 0 <= k < |a[1..]| && k < |b[1..]| && a[1..][..k] == b[1..][..k] && a[1..][k] < b[1..][k]
  {
    assert a == [a[0]] + a[1..] && b == [b[0]] + b[1..];
    if k :| 0 <= k < |a| && k < |b| && a[..k] == b[..k] && a[k] < b[k] {
      assert a[1..][..k - 1] == a[..k][1..] && b[1..][..k - 1] == b[..k][1..];
      assert a[1..][k - 1] < b[1..][k - 1];
    }
    if k :| 0 <= k < |a[1..]| && k < |b[1..]| && a[1..][..k] == b[1..][..k] && a[1..][k] < b[1..][k] {
      assert a[..k + 1] == [a[0]] + a[1..][..k] && b[..k + 1] == [b[0]] + b[1..][..k];
      assert a[k + 1] < b[k + 1];
    }
  }

  /** Insertion before the first element whose key is not smaller. */
  function Insert(x: string, s: seq<string>, key: string -> string): (r: seq<string>)
    ensures multiset(r) == multiset(s) + multiset{x} && |r| == |s| + 1
  {
    if s == [] || AtOrBefore(key(x), key(s[0])) then [x] + s
    else
      assert s == [s[0]] + s[1..];
      [s[0]] + Insert(x, s[1..], key)
  }

  /** The elements of s ordered by key. */
  function Sort(s: seq<string>, key: string -> string): (r: seq<string>)
    ensures multiset(r) == multiset(s) && |r| == |s|
  {
    if s == [] then []
    else
      assert s == [s[0]] + s[1..];
      Insert(s[0], Sort(s[1..], key), key)
  }

  predicate Sorted(s: seq<string>, key: string -> string) {
    |s| <= 1 || (AtOrBefore(key(s[0]), key(s[1])) && Sorted(s[1..], key))
  }

  lemma {:induction false} InsertSorted(x: string, s: seq<string>, key: string -> string)
    requires Sorted(s, key)
    ensures Sorted(Insert(x, s, key), key)
  {
    if s != [] && !AtOrBefore(key(x), key(s[0])) {
      Total(key(x), key(s[0]));
      InsertSorted(x, s[1..], key);
      var rest := Insert(x, s[1..], key);
      assert ([s[0]] + rest)[1..] == rest;
    } else if s != [] {
      assert ([x] + s)[1..] == s;
    }
  }

  lemma {:induction false} SortSorted(s: seq<string>, key: string -> string)
    ensures Sorted(Sort(s, key), key)
  {
    if s != [] {
      SortSorted(s[1..], key);
      InsertSorted(s[0], Sort(s[1..], key), key);
    }
  }

  /** The first element of a sorted sequence is at or before the others. */
  lemma {:induction false} FirstIsLeast(s: seq<string>, key: string -> string, x: string)
    requires Sorted(s, key) && x in s
    ensures AtOrBefore(key(s[0]), key(x))
  {
    if x == s[0] {
      Total(key(x), key(x));
    } else {
      assert s == [s[0]] + s[1..];
      FirstIsLeast(s[1..], key, x);
      Transitive(key(s[0]), key(s[1]), key(x));
    }
  }

  /** No two elements of s share a key. */
  ghost predicate KeysDiffer(s: seq<string>, key: string -> string) {
    forall x, y :: x in s && y in s && key(x) == key(y) ==> x == y
  }

  lemma SameFirst(a: seq<string>, b: seq<string>, key: string -> string)
    requires Sorted(a, key) && Sorted(b, key) && multiset(a) == multiset(b) && KeysDiffer(a, key)
    requires a != [] && b != []
    ensures a[0] == b[0]
  {
    assert a[0] in multiset(b) && b[0] in multiset(a);
    FirstIsLeast(a, key, b[0]);
    FirstIsLeast(b, key, a[0]);
    Antisymmetric(key(a[0]), key(b[0]));
  }

  lemma SameRest(a: seq<string>, b: seq<string>)
    requires a != [] && b != [] && a[0] == b[0] && multiset(a) == multiset(b)
    ensures multiset(a[1..]) == multiset(b[1..])
  {
    assert a == [a[0]] + a[1..] && b == [b[0]] + b[1..];
    assert multiset(a[1..]) == multiset(a) - multiset{a[0]};
    assert multiset(b[1..]) == multiset(b) - multiset{b[0]};
  }

  /** Two sorted arrangements of the same strings are the same when no two of them share a key. */
  lemma {:induction false} SortedUnique(a: seq<string>, b: seq<string>, key: string -> string)
    requires Sorted(a, key) && Sorted(b, key) && multiset(a) == multiset(b) && KeysDiffer(a, key)
    ensures a == b
  {
    S.SameLength(a, b);
    if a != [] {
      SameFirst(a, b, key);
      SameRest(a, b);
      assert KeysDiffer(a[1..], key) by {
        assert forall x :: x in a[1..] ==> x in a;
      }
      SortedUnique(a[1..], b[1..], key);
      assert a == [a[0]] + a[1..] && b == [b[0]] + b[1..];
    }
  }

  lemma {:induction false} SortedByKeys(a: seq<string>, b: seq<string>, key: string -> string)
    requires Sorted(a, key) && |a| == |b| && forall i :: 0 <= i < |a| ==> key(a[i]) == key(b[i])
    ensures Sorted(b, key)
  {
    if |a| > 1 {
      SortedByKeys(a[1..], b[1..], key);
    }
  }

  function Swap(s: seq<string>, i: nat, j: nat): seq<string>
    requires i < j < |s|
  {
    s[i := s[j]][j := s[i]]
  }

  lemma SwapKeeps(s: seq<string>, i: nat, j: nat)
    requires i < j < |s|
    ensures multiset(Swap(s, i, j)) == multiset(s)
  {
    var a, b, c := s[..i], s[i + 1..j], s[j + 1..];
    assert s == a + [s[i]] + b + [s[j]] + c;
    assert Swap(s, i, j) == a + [s[j]] + b + [s[i]] + c;
  }

  /** Two different strings with one key may change places in a sorted arrangement. */
  lemma SortedTwoWays(s: seq<string>, key: string -> string, x: string, y: string) returns (other: seq<string>)
    requires Sorted(s, key) && x in s && y in s && x != y && key(x) == key(y)
    ensures other != s && multiset(other) == multiset(s) && Sorted(other, key)
  {
    var i :| 0 <= i < |s| && s[i] == x;
    var j :| 0 <= j < |s| && s[j] == y;
    var first, second := if i < j then i else j, if i < j then j else i;
    other := Swap(s, first, second);
    SwapKeeps(s, first, second);
    SortedByKeys(s, other, key);
    assert other[first] != s[first];
  }

  function Itself(s: string): string {
    s
  }

  /** sort.Strings */
  function SortStrings(s: seq<string>): (r: seq<string>)
    ensures multiset(r) == multiset(s)
  {
    Sort(s, Itself)
  }

  /** Sorting forgets the order in which the strings came, and nothing else. */
  lemma SortForgetsOrder(a: seq<string>, b: seq<string>)
    ensures SortStrings(a) == SortStrings(b) <==> multiset(a) == multiset(b)
  {
    if multiset(a) == multiset(b) {
      SortSorted(a, Itself);
      SortSorted(b, Itself);
      SortedUnique(SortStrings(a), SortStrings(b), Itself);
    }
  }
}
