/** Go strings as byte strings: each char of a `string` stands for one byte of its UTF-8 encoding. */
module Text {
  import S = Sequences

  predicate IsUpper(c: char) {
    'A' <= c <= 'Z'
  }

  /** The ASCII lower case of a byte. */
  function LowerChar(c: char): char {
    if IsUpper(c) then (c as int + 32) as char else c
  }

  /** w is the UTF-8 encoding of one character for which unicode.IsSpace holds. */
  predicate IsSpaceRune(w: string) {
    || (|w| == 1 && ('\t' <= w[0] <= '\r' || w[0] == ' '))
    || (|w| == 2 && w[0] == '\U{C2}' && (w[1] == '\U{85}' || w[1] == '\U{A0}'))
    || (|w| == 3 && w[0] == '\U{E1}' && w[1] == '\U{9A}' && w[2] == '\U{80}')
    || (|w| == 3 && w[0] == '\U{E2}' && w[1] == '\U{80}' &&
        ('\U{80}' <= w[2] <= '\U{8A}' || w[2] == '\U{A8}' || w[2] == '\U{A9}' || w[2] == '\U{AF}'))
    || (|w| == 3 && w[0] == '\U{E2}' && w[1] == '\U{81}' && w[2] == '\U{9F}')
    || (|w| == 3 && w[0] == '\U{E3}' && w[1] == '\U{80}' && w[2] == '\U{80}')
  }

  /** Length of the white-space character s starts with, or 0. */
  function SpacePrefix(s: string): (n: nat)
    ensures n <= |s|
  {
    if |s| >= 1 && IsSpaceRune(s[..1]) then 1
    else if |s| >= 2 && IsSpaceRune(s[..2]) then 2
    else if |s| >= 3 && IsSpaceRune(s[..3]) then 3
    else 0
  }

  /** Length of the white-space character s ends with, or 0. */
  function SpaceSuffix(s: string): (n: nat)
    ensures n <= |s|
  {
    if |s| >= 1 && IsSpaceRune(s[|s| - 1..]) then 1
    else if |s| >= 2 && IsSpaceRune(s[|s| - 2..]) then 2
    else if |s| >= 3 && IsSpaceRune(s[|s| - 3..]) then 3
    else 0
  }

  /** A white-space character is one ASCII byte or two or three other bytes. */
  lemma RuneBytes(w: string)
    requires IsSpaceRune(w)
    ensures 1 <= |w| <= 3
    ensures |w| == 1 <==> w[0] < '\U{80}'
    ensures |w| > 1 ==> forall i :: 0 <= i < |w| ==> w[i] >= '\U{80}'
    ensures forall i :: 0 <= i < |w| ==> w[i] != '*' && w[i] != '.' && w[i] != '#'
    ensures '\n' in w ==> w == "\n"
    ensures |w| == 2 ==> w[0] == '\U{C2}'
    ensures |w| == 3 ==> w[0] != '\U{C2}' && w[1] != '\U{C2}'
  {
  }

  lemma PrefixRune(s: string)
    requires SpacePrefix(s) > 0
    ensures IsSpaceRune(s[..SpacePrefix(s)])
  {
  }

  lemma SuffixRune(s: string)
    requires SpaceSuffix(s) > 0
    ensures IsSpaceRune(s[|s| - SpaceSuffix(s)..])
  {
  }

  /** No white-space character starts another. */
  lemma OneRuneStart(v: string, w: string)
    requires IsSpaceRune(v) && IsSpaceRune(w) && v <= w
    ensures |v| == |w|
  {
    hide IsSpaceRune;
    RuneBytes(v);
    RuneBytes(w);
    assert v[0] == w[0];
  }

  /** No white-space character ends another. */
  lemma OneRuneEnd(v: string, w: string, k: nat)
    requires IsSpaceRune(v) && IsSpaceRune(w) && k + |v| == |w| && v == w[k..]
    ensures k == 0
  {
    hide IsSpaceRune;
    RuneBytes(v);
    RuneBytes(w);
    assert v[0] == w[k];
  }

  lemma StartsWithRune(s: string, w: string)
    requires IsSpaceRune(w) && w <= s
    ensures SpacePrefix(s) == |w|
  {
    RuneBytes(w);
    assert s[..|w|] == w;
    var v := s[..SpacePrefix(s)];
    assert |v| <= |w|;
    PrefixRune(s);
    OneRuneStart(v, w);
  }

  lemma EndsWithRune(s: string, w: string)
    requires IsSpaceRune(w) && |w| <= |s| && s[|s| - |w|..] == w
    ensures SpaceSuffix(s) == |w|
  {
    RuneBytes(w);
    var v := s[|s| - SpaceSuffix(s)..];
    assert |v| <= |w|;
    SuffixRune(s);
    assert v == w[|w| - |v|..];
    OneRuneEnd(v, w, |w| - |v|);
  }

  lemma PrefixStartsWithoutSpace(r: string, s: string)
    requires r <= s && SpacePrefix(s) == 0
    ensures SpacePrefix(r) == 0
  {
    assert |r| >= 1 ==> r[..1] == s[..1];
    assert |r| >= 2 ==> r[..2] == s[..2];
    assert |r| >= 3 ==> r[..3] == s[..3];
  }

  function TrimLeftSpace(s: string): (r: string)
    ensures |r| <= |s| && SpacePrefix(r) == 0
    ensures SpacePrefix(s) == 0 ==> r == s
  {
    hide IsSpaceRune, SpacePrefix;
    var n := SpacePrefix(s);
    if n == 0 then s else TrimLeftSpace(s[n..])
  }

  lemma DropTwice(s: string, a: nat, b: nat)
    requires a <= b <= |s|
    ensures s[a..][b - a..] == s[b..]
  {
  }

  lemma {:induction false} TrimLeftIsSuffix(s: string)
    ensures s[|s| - |TrimLeftSpace(s)|..] == TrimLeftSpace(s)
  {
    hide SpacePrefix;
    var n := SpacePrefix(s);
    if n > 0 {
      TrimLeftIsSuffix(s[n..]);
      DropTwice(s, n, |s| - |TrimLeftSpace(s)|);
    }
  }

  function TrimRightSpace(s: string): (r: string)
    ensures SpaceSuffix(r) == 0
    ensures r <= s
    ensures SpaceSuffix(s) == 0 ==> r == s
  {
    hide IsSpaceRune, SpaceSuffix;
    var n := SpaceSuffix(s);
    if n == 0 then s else TrimRightSpace(s[..|s| - n])
  }

  /** strings.TrimSpace */
  function TrimSpace(s: string): (r: string)
    ensures Trimmed(r)
    ensures Trimmed(s) ==> r == s
  {
    var t := TrimLeftSpace(s);
    PrefixStartsWithoutSpace(TrimRightSpace(t), t);
    TrimRightSpace(t)
  }

  /** s neither starts nor ends with white space. */
  predicate Trimmed(s: string) {
    SpacePrefix(s) == 0 && SpaceSuffix(s) == 0
  }

  /** w is white space. */
  predicate AllSpace(w: string) {
    w == "" || (SpacePrefix(w) > 0 && AllSpace(w[SpacePrefix(w)..]))
  }

  /** What TrimLeftSpace removes is white space. */
  lemma {:induction false} RemovedIsSpace(s: string)
    ensures AllSpace(s[..|s| - |TrimLeftSpace(s)|])
  {
    hide IsSpaceRune, SpacePrefix;
    var n := SpacePrefix(s);
    if n > 0 {
      var rest := s[n..];
      RemovedIsSpace(rest);
      var w := s[..|s| - |TrimLeftSpace(s)|];
      assert TrimLeftSpace(s) == TrimLeftSpace(rest);
      PrefixRune(s);
      assert s[..n] <= w;
      StartsWithRune(w, s[..n]);
      assert w[n..] == rest[..|rest| - |TrimLeftSpace(rest)|];
    }
  }

  lemma {:induction false} SpaceSnoc(a: string, w: string)
    requires AllSpace(a) && IsSpaceRune(w)
    ensures AllSpace(a + w)
    decreases |a|
  {
    hide IsSpaceRune, SpacePrefix;
    if a == "" {
      assert a + w == w;
      StartsWithRune(w, w);
      RuneBytes(w);
      assert w[|w|..] == "";
    } else {
      var n := SpacePrefix(a);
      PrefixRune(a);
      StartsWithRune(a + w, a[..n]);
      RuneBytes(a[..n]);
      SpaceSnoc(a[n..], w);
      assert (a + w)[n..] == a[n..] + w;
    }
  }

  lemma {:induction false} RemovedAtEnd(s: string)
    ensures AllSpace(s[|TrimRightSpace(s)|..])
  {
    hide IsSpaceRune, SpacePrefix, SpaceSuffix, AllSpace;
    var n := SpaceSuffix(s);
    var init := s[..|s| - n];
    if n > 0 {
      RemovedAtEnd(init);
      SuffixRune(s);
      SpaceSnoc(init[|TrimRightSpace(init)|..], s[|s| - n..]);
      assert s[|TrimRightSpace(s)|..] == init[|TrimRightSpace(init)|..] + s[|s| - n..];
    } else {
      NoSpaceLeft(s[|s|..]);
    }
  }

  lemma NoSpaceLeft(s: string)
    requires s == ""
    ensures AllSpace(s)
  {
  }

  /** TrimSpace removes white space at both ends, all of it, and nothing else. */
  lemma TrimSpaceMeaning(s: string) returns (lead: string, trail: string)
    ensures s == lead + TrimSpace(s) + trail && AllSpace(lead) && AllSpace(trail) && Trimmed(TrimSpace(s))
  {
    hide IsSpaceRune, SpacePrefix, SpaceSuffix, AllSpace, TrimLeftSpace, TrimRightSpace, Trimmed;
    var t := TrimLeftSpace(s);
    lead, trail := s[..|s| - |t|], t[|TrimRightSpace(t)|..];
    RemovedIsSpace(s);
    TrimLeftIsSuffix(s);
    RemovedAtEnd(t);
    assert t == TrimRightSpace(t) + trail;
    assert s == lead + t;
  }

  /** strings.Split for a one-byte separator. */
  function Split(s: string, sep: char): (parts: seq<string>)
    ensures |parts| >= 1
    ensures forall p :: p in parts ==> sep !in p
  {
    if s == [] then [[]]
    else
      var rest := Split(s[1..], sep);
      if s[0] == sep then [[]] + rest
      else [[s[0]] + rest[0]] + rest[1..]
  }

  /** strings.Join */
  function Join(parts: seq<string>, sep: string): string {
    if parts == [] then ""
    else if |parts| == 1 then parts[0]
    else parts[0] + sep + Join(parts[1..], sep)
  }

  /** The parts with white space trimmed, without those that are then empty. */
  function Compact(parts: seq<string>): seq<string> {
    if parts == [] then []
    else
      var init, last := Compact(parts[..|parts| - 1]), TrimSpace(parts[|parts| - 1]);
      if last != "" then init + [last] else init
  }

  lemma {:induction false} JoinSplit(s: string, sep: char)
    ensures Join(Split(s, sep), [sep]) == s
  {
    if s != [] {
      JoinSplit(s[1..], sep);
      var rest := Split(s[1..], sep);
      if s[0] == sep {
        assert ([[]] + rest)[1..] == rest;
      } else if |rest| > 1 {
        assert ([[s[0]] + rest[0]] + rest[1..])[1..] == rest[1..];
      }
    }
  }

  lemma {:induction false} SplitJoin(parts: seq<string>, sep: char)
    requires parts != []
    requires forall p :: p in parts ==> sep !in p
    ensures Split(Join(parts, [sep]), sep) == parts
  {
    if |parts| == 1 {
      SplitOne(parts[0], sep);
    } else {
      SplitJoin(parts[1..], sep);
      SplitPrefix(parts[0], Join(parts[1..], [sep]), sep);
      assert parts == [parts[0]] + parts[1..];
    }
  }

  lemma {:induction false} SplitOne(s: string, sep: char)
    requires sep !in s
    ensures Split(s, sep) == [s]
  {
    if s != [] {
      SplitOne(s[1..], sep);
      assert s == [s[0]] + s[1..];
    }
  }

  lemma {:induction false} SplitPrefix(a: string, b: string, sep: char)
    requires sep !in a
    ensures Split(a + [sep] + b, sep) == [a] + Split(b, sep)
  {
    if a == [] {
      assert a + [sep] + b == [sep] + b;
      assert ([sep] + b)[1..] == b;
    } else {
      SplitPrefix(a[1..], b, sep);
      assert (a + [sep] + b)[1..] == a[1..] + [sep] + b;
      assert a == [a[0]] + a[1..];
    }
  }

  /** Each part is trimmed, and those that are then empty are left out. */
  lemma {:induction false} CompactMeaning(parts: seq<string>)
    ensures Compact(parts) == S.Filter(S.Map(parts, TrimSpace), (p: string) => p != "")
  {
    hide TrimSpace;
    if parts != [] {
      var n := |parts| - 1;
      CompactMeaning(parts[..n]);
      assert S.Map(parts, TrimSpace)[..n] == S.Map(parts[..n], TrimSpace);
    }
  }

  /** Capital letters become the letters at the same place of the alphabet, and nothing else changes. */
  lemma LetterCase(c: char)
    ensures 'A' <= c <= 'Z' ==> LowerChar(c) as int - 'a' as int == c as int - 'A' as int
    ensures !('A' <= c <= 'Z') ==> LowerChar(c) == c
  {
  }
}
