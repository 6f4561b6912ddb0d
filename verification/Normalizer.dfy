/**
 The text normaliser: what Process makes of each field of a task, that doing it twice is doing it once, and what the
 description no longer contains. Strings are byte strings; unicode.ToLower on tags is a parameter.
 */
module Normalizer {
  import opened Sequences
  import opened Text
  import opened Replacing
  import StringOrder

  const TITLE_MAX: nat := 200
  const FIELD_MAX: nat := 10000
  const URL_MAX: nat := 500

  /** The Russian words for input and output, each with its colon. */
  const VVOD: string := "\U{D0}\U{92}\U{D0}\U{B2}\U{D0}\U{BE}\U{D0}\U{B4}:"
  const VYVOD: string := "\U{D0}\U{92}\U{D1}\U{8B}\U{D0}\U{B2}\U{D0}\U{BE}\U{D0}\U{B4}:"
  const INPUT: string := "**Input:**"
  const OUTPUT: string := "**Output:**"

  datatype Example = Example(input: string, output: string, explanation: string)

  function Bold(word: string): string {
    "**" + word + "**"
  }

  // ----- Fields -----

  /** truncateField */
  function Truncate(s: string, max: nat): string {
    if |s| <= max then s else s[..max] + "..."
  }

  /** The characters of `set` are removed from the left. */
  function TrimLeftSet(s: string, cut: string): (r: string)
    ensures r == "" || r[0] !in cut
    ensures |r| <= |s| && r == s[|s| - |r|..]
  {
    if s != "" && s[0] in cut then TrimLeftSet(s[1..], cut) else s
  }

  function Spaces(n: nat): (r: string)
    ensures |r| == n && forall i :: 0 <= i < n ==> r[i] == ' '
  {
    seq(n, i => ' ')
  }

  /** One line of normalizeMarkdownHeaders. */
  function HeaderLine(line: string): string {
    var trimmed := TrimSpace(line);
    if "###" <= trimmed then Spaces(|line| - |TrimLeftSet(line, " ")|) + "##" + TrimLeftSet(trimmed, "# ") else line
  }

  function HeaderLines(lines: seq<string>): (r: seq<string>)
    ensures |r| == |lines|
    ensures forall i :: 0 <= i < |lines| ==> r[i] == HeaderLine(lines[i])
  {
    seq(|lines|, i requires 0 <= i < |lines| => HeaderLine(lines[i]))
  }

  function Headers(text: string): string {
    Join(HeaderLines(Split(text, '\n')), "\n")
  }

  /** normalizeMarkdownHeaders as the code rewrites the lines. */
  method NormalizeMarkdownHeaders(text: string) returns (r: string)
    ensures r == Headers(text)
  {
    var lines := Split(text, '\n');
    ghost var all := lines;
    for i := 0 to |lines|
      invariant |lines| == |all|
      invariant forall k :: 0 <= k < i ==> lines[k] == HeaderLine(all[k])
      invariant forall k :: i <= k < |all| ==> lines[k] == all[k]
    {
      var line := RewriteLine(lines[i]);
      lines := lines[i := line];
    }
    assert lines == HeaderLines(all);
    r := Join(lines, "\n");
  }

  method RewriteLine(line: string) returns (r: string)
    ensures r == HeaderLine(line)
  {
    var trimmed := TrimSpace(line);
    r := line;
    if "###" <= trimmed {
      trimmed := "##" + TrimLeftSet(trimmed, "# ");
      r := Spaces(|line| - |TrimLeftSet(line, " ")|) + trimmed;
      SameLine(Spaces(|line| - |TrimLeftSet(line, " ")|), TrimLeftSet(TrimSpace(line), "# "));
    }
  }

  lemma SameLine(spaces: string, rest: string)
    ensures spaces + "##" + rest == spaces + ("##" + rest)
  {
  }

  /** The bold words first, then the plain ones. */
  function Unified(text: string, v: string, w: string, input: string, output: string): string
    requires v != "" && w != ""
  {
    var bold := ReplaceAll(ReplaceAll(text, Bold(v), input), Bold(w), output);
    ReplaceAll(ReplaceAll(bold, v, input), w, output)
  }

  /** unifyExampleLanguage */
  function Unify(text: string): string {
    Unified(text, VVOD, VYVOD, INPUT, OUTPUT)
  }

  function Description(s: string): string {
    Truncate(Unify(Headers(TrimSpace(s))), FIELD_MAX)
  }

  function Field(s: string, max: nat): string {
    Truncate(TrimSpace(s), max)
  }

  function Examples(s: seq<Example>): seq<Example> {
    Filter(s, (e: Example) => TrimSpace(e.input) != "" && TrimSpace(e.output) != "")
  }

  // ----- White space at the ends -----

  predicate Ascii(c: char) {
    c < '\U{80}'
  }

  /** A white-space character that starts before an ASCII byte ends before it, unless it is one. */
  lemma StartBeforeAscii(a: string, b: string)
    requires a != "" && (b == "" || Ascii(b[0]))
    ensures SpacePrefix(a + b) == SpacePrefix(a)
  {
    if SpacePrefix(a + b) > 0 {
      PrefixRune(a + b);
      var w := (a + b)[..SpacePrefix(a + b)];
      RuneInFirst(a, b, w);
      StartsWithRune(a, w);
    } else if SpacePrefix(a) > 0 {
      PrefixRune(a);
      var w := a[..SpacePrefix(a)];
      assert w <= a + b;
      StartsWithRune(a + b, w);
    }
  }

  lemma RuneInFirst(a: string, b: string, w: string)
    requires a != "" && (b == "" || Ascii(b[0])) && IsSpaceRune(w) && w <= a + b
    ensures w <= a
  {
    RuneBytes(w);
    var s := a + b;
    assert |a| < |s| ==> Ascii(s[|a|]);
    assert forall k :: 0 <= k < |w| ==> w[k] == s[k];
  }

  lemma EndAfterAscii(a: string, b: string)
    requires b != "" && (a == "" || Ascii(a[|a| - 1]))
    ensures SpaceSuffix(a + b) == SpaceSuffix(b)
  {
    if SpaceSuffix(b) > 0 {
      EndStays(a, b);
    } else if SpaceSuffix(a + b) > 0 {
      EndMoves(a, b);
    }
  }

  lemma EndStays(a: string, b: string)
    requires SpaceSuffix(b) > 0
    ensures SpaceSuffix(a + b) == SpaceSuffix(b)
  {
    SuffixRune(b);
    var w := b[|b| - SpaceSuffix(b)..];
    assert (a + b)[|a + b| - |w|..] == w;
    EndsWithRune(a + b, w);
  }

  lemma EndMoves(a: string, b: string)
    requires b != "" && (a == "" || Ascii(a[|a| - 1])) && SpaceSuffix(a + b) > 0
    ensures SpaceSuffix(a + b) == SpaceSuffix(b)
  {
    SuffixRune(a + b);
    var w := (a + b)[|a + b| - SpaceSuffix(a + b)..];
    RuneInLast(a, b, w);
    EndsWithRune(b, w);
  }

  lemma RuneInLast(a: string, b: string, w: string)
    requires b != "" && (a == "" || Ascii(a[|a| - 1])) && IsSpaceRune(w) && EndsWith(a + b, w)
    ensures EndsWith(b, w)
  {
    RuneBytes(w);
    var s := a + b;
    assert a != "" ==> Ascii(s[|a| - 1]);
    assert forall k :: |s| - |w| <= k < |s| ==> s[k] == w[k - (|s| - |w|)];
    assert |w| <= |b|;
  }

  lemma EndOfSuffix(a: string, b: string)
    requires SpaceSuffix(a + b) == 0
    ensures SpaceSuffix(b) == 0
  {
    if SpaceSuffix(b) > 0 {
      EndStays(a, b);
    }
  }

  lemma DotsTrimmed(s: string, n: nat)
    requires 0 < n <= |s| && SpacePrefix(s) == 0
    ensures Trimmed(s[..n] + "...")
  {
    PrefixStartsWithoutSpace(s[..n], s);
    StartBeforeAscii(s[..n], "...");
    EndsInMark(s[..n] + "...");
  }

  predicate Mark(c: char) {
    c == '.' || c == '#' || c == '*'
  }

  lemma EndsInMark(s: string)
    requires s != "" && Mark(s[|s| - 1])
    ensures SpaceSuffix(s) == 0
  {
    if SpaceSuffix(s) > 0 {
      SpaceIsNotMark(s);
    }
  }

  lemma SpaceIsNotMark(s: string)
    requires SpaceSuffix(s) > 0
    ensures s != "" && !Mark(s[|s| - 1])
  {
    SuffixRune(s);
    var w := s[|s| - SpaceSuffix(s)..];
    RuneBytes(w);
    assert s[|s| - 1] == w[|w| - 1];
  }

  lemma TruncateTrimmed(s: string, max: nat)
    requires Trimmed(s) && max > 0
    ensures Trimmed(Truncate(s, max))
  {
    if |s| > max {
      DotsTrimmed(s, max);
    }
  }

  lemma TruncateTwice(s: string, max: nat)
    ensures Truncate(Truncate(s, max), max) == Truncate(s, max)
    ensures |Truncate(s, max)| == if |s| <= max then |s| else max + 3
  {
    if |s| > max {
      assert (s[..max] + "...")[..max] == s[..max];
    }
  }

  /** A field that is short enough is only trimmed; of a longer one the first bytes are kept, with three dots. */
  lemma FieldMeaning(s: string, max: nat) returns (lead: string, trail: string)
    ensures s == lead + TrimSpace(s) + trail && AllSpace(lead) && AllSpace(trail)
    ensures |TrimSpace(s)| <= max ==> Field(s, max) == TrimSpace(s)
    ensures |TrimSpace(s)| > max ==> Field(s, max) == TrimSpace(s)[..max] + "..."
  {
    lead, trail := TrimSpaceMeaning(s);
  }

  /** Title, URL: trimming and truncating twice is the same as once; a field cut short is three bytes over the limit. */
  lemma FieldIdempotent(s: string, max: nat)
    requires max > 0
    ensures Field(Field(s, max), max) == Field(s, max)
    ensures |Field(s, max)| <= max <==> |TrimSpace(s)| <= max
  {
    TruncateTrimmed(TrimSpace(s), max);
    TruncateTwice(TrimSpace(s), max);
  }

  // ----- Header lines -----

  /** After k bytes of white space in its first line, s goes on with "###". */
  predicate HeaderAt(s: string, k: nat) {
    k + 3 <= |s| && s[k..k + 3] == "###" && '\n' !in s[..k] && AllSpace(s[..k])
  }

  /** The first line of s is a header of level three or deeper. */
  ghost predicate HeaderHere(s: string) {
    exists k: nat :: HeaderAt(s, k)
  }

  /** Some line after the first is a header of level three or deeper. */
  ghost predicate HeaderBelow(s: string) {
    s != "" && ((s[0] == '\n' && HeaderHere(s[1..])) || HeaderBelow(s[1..]))
  }

  ghost predicate HasHeader(s: string) {
    HeaderHere(s) || HeaderBelow(s)
  }

  /** The line starts with "###" once white space is removed. */
  predicate DeepHeader(line: string) {
    "###" <= TrimSpace(line)
  }

  lemma {:induction false} SpaceChars(w: string)
    requires AllSpace(w)
    ensures '*' !in w && '.' !in w && '#' !in w
    decreases |w|
  {
    if w != "" {
      var n := SpacePrefix(w);
      PrefixRune(w);
      RuneBytes(w[..n]);
      SpaceChars(w[n..]);
      assert w == w[..n] + w[n..];
    }
  }

  lemma HeaderPrefix(s: string, k: nat)
    requires HeaderAt(s, k)
    ensures '*' !in s[..k + 3] && '.' !in s[..k + 3] && '\n' !in s[..k + 3]
  {
    SpaceChars(s[..k]);
    assert s[..k + 3] == s[..k] + s[k..k + 3];
  }

  lemma SameHeader(s: string, r: string, k: nat)
    requires HeaderAt(s, k) && s[..k + 3] <= r
    ensures HeaderAt(r, k)
  {
    assert r[..k] == s[..k];
    assert r[k..k + 3] == s[..k + 3][k..k + 3];
  }

  // ----- Headers and lines -----

  lemma TrimLeftStep(v: string, rest: string)
    requires IsSpaceRune(v)
    ensures TrimLeftSpace(v + rest) == TrimLeftSpace(rest)
  {
    RuneBytes(v);
    StartsWithRune(v + rest, v);
    assert (v + rest)[|v|..] == rest;
  }

  lemma FirstSpace(w: string) returns (v: string, rest: string)
    requires AllSpace(w) && w != ""
    ensures IsSpaceRune(v) && w == v + rest && AllSpace(rest) && |rest| < |w|
  {
    PrefixRune(w);
    v, rest := w[..SpacePrefix(w)], w[SpacePrefix(w)..];
    RuneBytes(v);
  }

  lemma Associate(a: string, b: string, c: string)
    ensures (a + b) + c == a + (b + c)
  {
  }

  lemma {:induction false} SpaceIsRemoved(w: string, q: string)
    requires AllSpace(w) && TrimLeftSpace(q) == q
    ensures TrimLeftSpace(w + q) == q
    decreases |w|
  {
    if w == "" {
      assert w + q == q;
    } else {
      var v, rest := FirstSpace(w);
      SpaceIsRemoved(rest, q);
      TrimLeftStep(v, rest + q);
      Associate(v, rest, q);
    }
  }

  /** Trimming on the right keeps the number signs. */
  lemma {:induction false} TrimRightKeeps(t: string)
    ensures "###" <= TrimRightSpace(t) <==> "###" <= t
    decreases |t|
  {
    hide SpaceSuffix;
    var n := SpaceSuffix(t);
    if n > 0 {
      assert TrimRightSpace(t) == TrimRightSpace(t[..|t| - n]);
      TrimRightKeeps(t[..|t| - n]);
      if "###" <= t {
        SuffixNotHash(t, n);
      }
    }
  }

  lemma SuffixNotHash(t: string, n: nat)
    requires "###" <= t && n == SpaceSuffix(t) && n > 0
    ensures "###" <= t[..|t| - n]
  {
    var w := t[|t| - n..];
    SuffixRune(t);
    RuneBytes(w);
    assert t[0] == '#' && t[1] == '#' && t[2] == '#';
    assert forall i :: |t| - n <= i < |t| ==> t[i] == w[i - (|t| - n)];
    assert |t| - n >= 3;
  }

  lemma NoSpaceAtSigns(q: string)
    requires q != "" && q[0] == '#'
    ensures SpacePrefix(q) == 0
  {
    if SpacePrefix(q) > 0 {
      SpaceIsNotSign(q);
    }
  }

  lemma SpaceIsNotSign(q: string)
    requires SpacePrefix(q) > 0
    ensures q[0] != '#'
  {
    PrefixRune(q);
    var w := q[..SpacePrefix(q)];
    RuneBytes(w);
    assert q[0] == w[0];
  }

  lemma DeepIsHeader(line: string)
    requires '\n' !in line
    ensures DeepHeader(line) <==> HeaderHere(line)
  {
    TrimRightKeeps(TrimLeftSpace(line));
    if "###" <= TrimLeftSpace(line) {
      TrimmedHeader(line);
    }
    if HeaderHere(line) {
      var k: nat :| HeaderAt(line, k);
      HeaderTrimmed(line, k);
    }
  }

  lemma SignsAt(line: string, k: nat)
    requires k <= |line| && "###" <= line[k..]
    ensures k + 3 <= |line| && line[k..k + 3] == "###"
  {
    assert line[k..k + 3] == line[k..][..3];
  }

  lemma PrefixLacks(s: string, k: nat, c: char)
    requires k <= |s| && c !in s
    ensures c !in s[..k]
  {
  }

  lemma HeaderIsAt(line: string, k: nat)
    requires k <= |line| && '\n' !in line && "###" <= line[k..] && AllSpace(line[..k])
    ensures HeaderAt(line, k)
  {
    hide AllSpace;
    PrefixLacks(line, k, '\n');
    SignsAt(line, k);
  }

  lemma TrimmedHeader(line: string)
    requires '\n' !in line && "###" <= TrimLeftSpace(line)
    ensures HeaderAt(line, |line| - |TrimLeftSpace(line)|)
  {
    hide TrimLeftSpace, AllSpace, HeaderAt;
    TrimLeftIsSuffix(line);
    RemovedIsSpace(line);
    HeaderIsAt(line, |line| - |TrimLeftSpace(line)|);
  }

  lemma HeaderTrimmed(line: string, k: nat)
    requires HeaderAt(line, k)
    ensures "###" <= TrimLeftSpace(line)
  {
    var q := line[k..];
    assert q[..3] == line[k..k + 3];
    assert q[0] == "###"[0];
    NoSpaceAtSigns(q);
    SpaceIsRemoved(line[..k], q);
    assert line == line[..k] + q;
  }

  lemma HeaderOfLine(line: string, rest: string)
    requires '\n' !in line && (rest == "" || rest[0] == '\n')
    ensures HeaderHere(line + rest) <==> HeaderHere(line)
  {
    var s := line + rest;
    if HeaderHere(line) {
      var k: nat :| HeaderAt(line, k);
      SameHeader(line, s, k);
    }
    if HeaderHere(s) {
      var k: nat :| HeaderAt(s, k);
      HeaderPrefix(s, k);
      WithinLine(line, rest, k + 3);
      SameHeader(s, line, k);
    }
  }

  lemma WithinLine(line: string, rest: string, n: nat)
    requires (rest == "" || rest[0] == '\n') && n <= |line + rest| && '\n' !in (line + rest)[..n]
    ensures (line + rest)[..n] <= line
  {
    var s := line + rest;
    assert |line| < |s| ==> s[|line|] == '\n';
    assert forall i :: 0 <= i < n ==> s[i] in s[..n];
  }

  lemma {:induction false} BelowSkip(a: string, b: string)
    requires '\n' !in a
    ensures HeaderBelow(a + b) <==> HeaderBelow(b)
  {
    if a == "" {
      assert a + b == b;
    } else {
      BelowSkip(a[1..], b);
      assert (a + b)[1..] == a[1..] + b;
    }
  }

  lemma NoBreakNoHeaderBelow(s: string)
    requires '\n' !in s
    ensures !HeaderBelow(s)
  {
    BelowSkip(s, "");
    assert s + "" == s;
  }

  ghost predicate AnyDeep(lines: seq<string>) {
    exists i :: 0 <= i < |lines| && DeepHeader(lines[i])
  }

  lemma AnyDeepFirst(lines: seq<string>)
    requires lines != []
    ensures AnyDeep(lines) <==> DeepHeader(lines[0]) || AnyDeep(lines[1..])
  {
    hide DeepHeader;
    assert forall i :: 0 < i < |lines| ==> lines[i] == lines[1..][i - 1];
    if AnyDeep(lines[1..]) {
      var i :| 0 <= i < |lines[1..]| && DeepHeader(lines[1..][i]);
      assert DeepHeader(lines[i + 1]);
    }
  }

  lemma FirstLineOfTwo(line: string, rest: string)
    requires '\n' !in line
    ensures HasHeader(line + "\n" + rest) <==> DeepHeader(line) || HasHeader(rest)
  {
    var tail := "\n" + rest;
    assert line + "\n" + rest == line + tail;
    HeaderOfLine(line, tail);
    DeepIsHeader(line);
    BelowSkip(line, tail);
    assert tail[1..] == rest;
  }

  /** The text has a header of level three or deeper exactly when one of its lines is one. */
  lemma {:induction false} HeadersByLine(lines: seq<string>)
    requires lines != [] && forall l :: l in lines ==> '\n' !in l
    ensures HasHeader(Join(lines, "\n")) <==> AnyDeep(lines)
  {
    AnyDeepFirst(lines);
    if |lines| == 1 {
      DeepIsHeader(lines[0]);
      NoBreakNoHeaderBelow(lines[0]);
      assert !AnyDeep(lines[1..]);
    } else {
      HeadersByLine(lines[1..]);
      FirstLineOfTwo(lines[0], Join(lines[1..], "\n"));
    }
  }

  lemma {:induction false} SpacesAreSpace(n: nat)
    ensures AllSpace(Spaces(n))
  {
    if n > 0 {
      SpacesAreSpace(n - 1);
      assert Spaces(n)[..1] == " ";
      StartsWithRune(Spaces(n), " ");
      assert Spaces(n)[1..] == Spaces(n - 1);
    }
  }

  function Signs(k: nat): (r: string)
    ensures |r| == k && forall i :: 0 <= i < k ==> r[i] == '#'
  {
    seq(k, i => '#')
  }

  lemma {:induction false} CutAway(cut: string, a: string, b: string)
    requires (forall i :: 0 <= i < |a| ==> a[i] in cut) && (b == "" || b[0] !in cut)
    ensures TrimLeftSet(a + b, cut) == b
  {
    if a == "" {
      assert a + b == b;
    } else {
      CutAway(cut, a[1..], b);
      assert (a + b)[1..] == a[1..] + b;
    }
  }

  /**
   A header line of level three or deeper, taken apart: indentation, number signs, spaces, title. The indentation and
   the title are kept, two number signs are left, and the spaces between are gone.
   */
  lemma HeaderMeaning(indent: nat, level: nat, gap: nat, title: string)
    requires level >= 3 && title != "" && Trimmed(title) && title[0] != '#' && title[0] != ' '
    ensures HeaderLine(Spaces(indent) + (Signs(level) + Spaces(gap) + title)) == Spaces(indent) + "##" + title
  {
    hide *;
    var marks := Signs(level) + Spaces(gap);
    MarksOf(level, gap, title);
    CutAway(" ", Spaces(indent), marks + title);
    CutAway("# ", marks, title);
    HeaderTrims(indent, marks, title);
    HeaderRewritten(Spaces(indent) + (marks + title), indent, title);
  }

  lemma HeaderRewritten(line: string, n: nat, title: string)
    requires "###" <= TrimSpace(line) && TrimLeftSet(TrimSpace(line), "# ") == title
    requires |line| - |TrimLeftSet(line, " ")| == n
    ensures HeaderLine(line) == Spaces(n) + "##" + title
  {
    hide TrimSpace, TrimLeftSet;
  }

  lemma MarksOf(level: nat, gap: nat, title: string)
    requires level >= 3
    ensures var marks := Signs(level) + Spaces(gap);
            && marks != "" && marks[0] == '#' && Ascii(marks[|marks| - 1]) && "###" <= marks + title
            && (forall i :: 0 <= i < |marks| ==> marks[i] in "# ") && (marks + title)[0] == '#'
  {
  }

  lemma HeaderTrims(indent: nat, marks: string, title: string)
    requires marks != "" && marks[0] == '#' && Ascii(marks[|marks| - 1]) && title != "" && Trimmed(title)
    ensures TrimSpace(Spaces(indent) + (marks + title)) == marks + title
  {
    hide AllSpace, TrimLeftSpace, TrimRightSpace;
    var q := marks + title;
    SpacesAreSpace(indent);
    NoSpaceAtSigns(q);
    EndAfterAscii(marks, title);
    SpaceIsRemoved(Spaces(indent), q);
    assert TrimRightSpace(q) == q;
  }

  lemma LevelTwo(n: nat, rest: string)
    requires rest == "" || rest[0] != '#'
    ensures !DeepHeader(Spaces(n) + ("##" + rest))
  {
    var q := "##" + rest;
    SpacesAreSpace(n);
    NoSpaceAtSigns(q);
    SpaceIsRemoved(Spaces(n), q);
    TrimRightKeeps(q);
    assert rest != "" ==> q[2] == rest[0];
  }

  lemma TrimSpacePart(s: string, c: char)
    requires c !in s
    ensures c !in TrimSpace(s)
  {
    hide TrimLeftSpace, TrimRightSpace, SpacePrefix, SpaceSuffix;
    var t := TrimLeftSpace(s);
    TrimLeftIsSuffix(s);
    assert forall x :: x in t ==> x in s;
    assert forall x :: x in TrimRightSpace(t) ==> x in t;
  }

  lemma TrimSetPart(s: string, cut: string, c: char)
    requires c !in s
    ensures c !in TrimLeftSet(s, cut)
  {
    assert forall x :: x in TrimLeftSet(s, cut) ==> x in s;
  }

  lemma DeepLine(line: string) returns (n: nat, rest: string)
    requires DeepHeader(line)
    ensures HeaderLine(line) == Spaces(n) + ("##" + rest) && rest == TrimLeftSet(TrimSpace(line), "# ")
    ensures rest == "" || rest[0] != '#'
    ensures n == |line| - |TrimLeftSet(line, " ")|
  {
    hide TrimSpace;
    n, rest := |line| - |TrimLeftSet(line, " ")|, TrimLeftSet(TrimSpace(line), "# ");
    SameLine(Spaces(n), rest);
    assert rest != "" ==> rest[0] !in "# " && "# "[0] == '#';
  }

  lemma NoBreakInHeader(n: nat, rest: string)
    requires '\n' !in rest
    ensures '\n' !in Spaces(n) + ("##" + rest)
  {
  }

  lemma FlatLine(line: string)
    ensures !DeepHeader(line) ==> HeaderLine(line) == line
  {
    hide TrimSpace, TrimLeftSet;
  }

  lemma HeaderLineFlat(line: string)
    requires '\n' !in line
    ensures !DeepHeader(HeaderLine(line)) && '\n' !in HeaderLine(line)
  {
    hide DeepHeader, HeaderLine, TrimSpace, TrimLeftSet;
    FlatLine(line);
    if DeepHeader(line) {
      var n, rest := DeepLine(line);
      TrimSpacePart(line, '\n');
      TrimSetPart(TrimSpace(line), "# ", '\n');
      LevelTwo(n, rest);
      NoBreakInHeader(n, rest);
    }
  }

  /** After normalizeMarkdownHeaders there is no header of level three or deeper. */
  lemma HeadersFlat(text: string)
    ensures !HasHeader(Headers(text))
  {
    var lines := HeaderLines(Split(text, '\n'));
    forall i | 0 <= i < |lines| ensures !DeepHeader(lines[i]) && '\n' !in lines[i] {
      HeaderLineFlat(Split(text, '\n')[i]);
    }
    HeadersByLine(lines);
  }

  /** Without such a header nothing is rewritten. */
  lemma HeadersUnchanged(text: string)
    requires !HasHeader(text)
    ensures Headers(text) == text
  {
    var lines := Split(text, '\n');
    JoinSplit(text, '\n');
    HeadersByLine(lines);
    forall i | 0 <= i < |lines| ensures HeaderLine(lines[i]) == lines[i] {
      assert !DeepHeader(lines[i]);
    }
    assert HeaderLines(lines) == lines;
  }

  // ----- Headers survive neither replacing nor truncating -----

  lemma HeaderHereReplaced(s: string, word: string, text: string)
    requires word != "" && Starred(text) && HeaderHere(ReplaceAll(s, word, text))
    ensures HeaderHere(s)
  {
    var r := ReplaceAll(s, word, text);
    var k: nat :| HeaderAt(r, k);
    HeaderPrefix(r, k);
    Copied(s, word, text, r[..k + 3]);
    SameHeader(r, s, k);
  }

  lemma {:induction false} BelowLater(s: string, n: nat)
    requires n <= |s| && HeaderBelow(s[n..])
    ensures HeaderBelow(s)
  {
    if n == 0 {
      assert s[0..] == s;
    } else {
      assert s[n..] == s[1..][n - 1..];
      BelowLater(s[1..], n - 1);
    }
  }

  lemma {:induction false} HeaderBelowReplaced(s: string, word: string, text: string)
    requires word != "" && Starred(text) && HeaderBelow(ReplaceAll(s, word, text))
    ensures HeaderBelow(s)
    decreases |s|
  {
    var r := ReplaceAll(s, word, text);
    if word <= s {
      BelowSkip(text, ReplaceAll(s[|word|..], word, text));
      HeaderBelowReplaced(s[|word|..], word, text);
      BelowLater(s, |word|);
    } else {
      var rest := ReplaceAll(s[1..], word, text);
      assert r[1..] == rest;
      if r[0] == '\n' && HeaderHere(rest) {
        HeaderHereReplaced(s[1..], word, text);
      } else {
        HeaderBelowReplaced(s[1..], word, text);
      }
    }
  }

  lemma NoHeaderReplaced(s: string, word: string, text: string)
    requires word != "" && Starred(text) && !HasHeader(s)
    ensures !HasHeader(ReplaceAll(s, word, text))
  {
    if HeaderHere(ReplaceAll(s, word, text)) {
      HeaderHereReplaced(s, word, text);
    } else if HeaderBelow(ReplaceAll(s, word, text)) {
      HeaderBelowReplaced(s, word, text);
    }
  }

  lemma BeforeDots(p: string, n: nat)
    requires n <= |p + "..."| && '.' !in (p + "...")[..n]
    ensures (p + "...")[..n] <= p
  {
    var s := p + "...";
    assert |p| < |s| && s[|p|] == '.';
    assert forall i :: 0 <= i < n ==> s[i] in s[..n];
  }

  lemma HeaderHereCut(p: string, q: string)
    requires HeaderHere(p + "...")
    ensures HeaderHere(p + q)
  {
    var k: nat :| HeaderAt(p + "...", k);
    HeaderPrefix(p + "...", k);
    BeforeDots(p, k + 3);
    SameHeader(p + "...", p + q, k);
  }

  lemma {:induction false} HeaderBelowCut(p: string, q: string)
    requires HeaderBelow(p + "...")
    ensures HeaderBelow(p + q)
  {
    if p == "" {
      NoBreakNoHeaderBelow(p + "...");
    } else {
      assert (p + "...")[1..] == p[1..] + "..." && (p + q)[1..] == p[1..] + q;
      if p[0] == '\n' && HeaderHere(p[1..] + "...") {
        HeaderHereCut(p[1..], q);
      } else {
        HeaderBelowCut(p[1..], q);
      }
    }
  }

  lemma NoHeaderTruncated(s: string, max: nat)
    requires !HasHeader(s)
    ensures !HasHeader(Truncate(s, max))
  {
    if |s| > max {
      assert s == s[..max] + s[max..];
      if HeaderHere(s[..max] + "...") {
        HeaderHereCut(s[..max], s[max..]);
      } else if HeaderBelow(s[..max] + "...") {
        HeaderBelowCut(s[..max], s[max..]);
      }
    }
  }

  // ----- White space at the ends is not put back -----

  lemma FirstLineEmpty(t: string)
    requires t != "" && Split(t, '\n')[0] == ""
    ensures SpacePrefix(t) == 1
  {
    JoinSplit(t, '\n');
    assert t[0] == '\n';
    StartsWithRune(t, "\n");
  }

  lemma {:induction false} JoinLast(lines: seq<string>)
    requires |lines| >= 2
    ensures Join(lines, "\n") == Join(lines[..|lines| - 1], "\n") + "\n" + lines[|lines| - 1]
  {
    if |lines| > 2 {
      JoinLast(lines[1..]);
      assert lines[1..][..|lines| - 2] == lines[..|lines| - 1][1..];
    }
  }

  lemma LastLineEmpty(t: string)
    requires t != "" && Split(t, '\n')[|Split(t, '\n')| - 1] == ""
    ensures SpaceSuffix(t) == 1
  {
    JoinSplit(t, '\n');
    JoinLast(Split(t, '\n'));
    assert t[|t| - 1..] == "\n";
    EndsWithRune(t, "\n");
  }

  lemma JoinStart(lines: seq<string>)
    requires lines != [] && lines[0] != ""
    ensures SpacePrefix(Join(lines, "\n")) == SpacePrefix(lines[0])
  {
    hide SpacePrefix, SpaceSuffix;
    if |lines| > 1 {
      var rest := Join(lines[1..], "\n");
      Associate(lines[0], "\n", rest);
      StartBeforeAscii(lines[0], "\n" + rest);
    }
  }

  lemma JoinEnd(lines: seq<string>)
    requires lines != [] && lines[|lines| - 1] != ""
    ensures SpaceSuffix(Join(lines, "\n")) == SpaceSuffix(lines[|lines| - 1])
  {
    hide SpacePrefix, SpaceSuffix;
    if |lines| > 1 {
      JoinLast(lines);
      EndAfterAscii(Join(lines[..|lines| - 1], "\n") + "\n", lines[|lines| - 1]);
    }
  }

  lemma NoIndent(line: string)
    requires line != "" && SpacePrefix(line) == 0
    ensures TrimLeftSet(line, " ") == line
  {
    if line[0] == ' ' {
      StartsWithRune(line, " ");
    }
  }

  lemma LineStart(line: string)
    requires line != "" && SpacePrefix(line) == 0
    ensures HeaderLine(line) != "" && SpacePrefix(HeaderLine(line)) == 0
  {
    if DeepHeader(line) {
      var n, rest := DeepLine(line);
      NoIndent(line);
      assert HeaderLine(line)[0] == '#';
      NoSpaceAtSigns(HeaderLine(line));
    }
  }

  lemma LineEnd(line: string)
    requires line != "" && SpaceSuffix(line) == 0
    ensures HeaderLine(line) != "" && SpaceSuffix(HeaderLine(line)) == 0
  {
    hide SpaceSuffix, TrimLeftSet;
    if DeepHeader(line) {
      var n, rest := DeepLine(line);
      var trimmed := TrimSpace(line);
      Associate(Spaces(n), "##", rest);
      if rest == "" {
        assert HeaderLine(line)[|HeaderLine(line)| - 1] == '#';
        EndsInMark(HeaderLine(line));
      } else {
        EndAfterAscii(Spaces(n) + "##", rest);
        assert trimmed == trimmed[..|trimmed| - |rest|] + rest;
        EndOfSuffix(trimmed[..|trimmed| - |rest|], rest);
      }
    }
  }

  lemma LinesOfTrimmed(t: string)
    requires Trimmed(t) && t != ""
    ensures var lines := Split(t, '\n');
            && lines[0] != "" && lines[|lines| - 1] != ""
            && SpacePrefix(lines[0]) == 0 && SpaceSuffix(lines[|lines| - 1]) == 0
  {
    hide SpacePrefix, SpaceSuffix, Join, Split;
    var lines := Split(t, '\n');
    JoinSplit(t, '\n');
    if lines[0] == "" {
      FirstLineEmpty(t);
    }
    if lines[|lines| - 1] == "" {
      LastLineEmpty(t);
    }
    JoinStart(lines);
    JoinEnd(lines);
  }

  lemma HeadersStart(lines: seq<string>)
    requires lines != [] && lines[0] != "" && SpacePrefix(lines[0]) == 0
    ensures SpacePrefix(Join(HeaderLines(lines), "\n")) == 0
  {
    hide SpacePrefix, SpaceSuffix, HeaderLine, Join;
    LineStart(lines[0]);
    JoinStart(HeaderLines(lines));
  }

  lemma HeadersEnd(lines: seq<string>)
    requires lines != [] && lines[|lines| - 1] != "" && SpaceSuffix(lines[|lines| - 1]) == 0
    ensures SpaceSuffix(Join(HeaderLines(lines), "\n")) == 0
  {
    hide SpacePrefix, SpaceSuffix, HeaderLine, Join;
    LineEnd(lines[|lines| - 1]);
    JoinEnd(HeaderLines(lines));
  }

  lemma HeadersTrimmed(t: string)
    requires Trimmed(t)
    ensures Trimmed(Headers(t))
  {
    hide SpacePrefix, SpaceSuffix, HeaderLine, Split, Join;
    if t == "" {
      HeadersOfNothing();
    } else {
      assert SpacePrefix(Headers(t)) == 0 by {
        LinesOfTrimmed(t);
        HeadersStart(Split(t, '\n'));
      }
      assert SpaceSuffix(Headers(t)) == 0 by {
        LinesOfTrimmed(t);
        HeadersEnd(Split(t, '\n'));
      }
    }
  }

  lemma HeadersOfNothing()
    ensures Headers("") == ""
  {
    assert HeaderLines([""]) == [""];
  }

  lemma ReplacedStart(s: string, word: string, text: string)
    requires word != "" && Starred(text) && SpacePrefix(ReplaceAll(s, word, text)) > 0
    ensures SpacePrefix(s) > 0
  {
    hide SpacePrefix, ReplaceAll, Starred, IsSpaceRune;
    var r := ReplaceAll(s, word, text);
    PrefixRune(r);
    var w := r[..SpacePrefix(r)];
    RuneBytes(w);
    Copied(s, word, text, w);
    StartsWithRune(s, w);
  }

  lemma ReplacedEnd(s: string, word: string, text: string)
    requires word != "" && Starred(text) && SpaceSuffix(ReplaceAll(s, word, text)) > 0
    ensures SpaceSuffix(s) > 0
  {
    hide SpaceSuffix, ReplaceAll, Starred, IsSpaceRune;
    var r := ReplaceAll(s, word, text);
    SuffixRune(r);
    var w := r[|r| - SpaceSuffix(r)..];
    RuneBytes(w);
    CopiedEnd(s, word, text, w);
    EndsWithRune(s, w);
  }

  lemma ReplacedTrimmed(s: string, word: string, text: string)
    requires word != "" && Starred(text) && Trimmed(s)
    ensures Trimmed(ReplaceAll(s, word, text))
  {
    if SpacePrefix(ReplaceAll(s, word, text)) > 0 {
      ReplacedStart(s, word, text);
    }
    if SpaceSuffix(ReplaceAll(s, word, text)) > 0 {
      ReplacedEnd(s, word, text);
    }
  }

  // ----- The Russian words -----

  lemma {:induction false} HasMeansFirst(s: string, w: string)
    requires w != "" && Has(s, w)
    ensures w[0] in s
  {
    if w <= s {
      assert w[0] == s[0];
    } else {
      HasMeansFirst(s[1..], w);
    }
  }

  lemma HasFirst(s: string, w: string)
    requires w != "" && w[0] !in s
    ensures !Has(s, w)
  {
    if Has(s, w) {
      HasMeansFirst(s, w);
    }
  }

  lemma StarredTexts()
    ensures Starred(INPUT) && Starred(OUTPUT)
  {
  }

  /** A Russian word: neither asterisk nor dot in it, and it does not occur in the replacement texts. */
  predicate Russian(w: string) {
    w != "" && '*' !in w && '.' !in w && w[0] == '\U{D0}'
  }

  lemma RussianWords()
    ensures Russian(VVOD) && Russian(VYVOD)
  {
  }

  lemma NotInTexts(w: string)
    requires Russian(w)
    ensures !Has(INPUT, w) && !Has(OUTPUT, w)
  {
    HasFirst(INPUT, w);
    HasFirst(OUTPUT, w);
  }

  lemma Words()
    ensures Starred(INPUT) && Starred(OUTPUT) && Russian(VVOD) && Russian(VYVOD)
    ensures !Has(INPUT, VVOD) && !Has(INPUT, VYVOD) && !Has(OUTPUT, VVOD) && !Has(OUTPUT, VYVOD)
  {
    StarredTexts();
    RussianWords();
    NotInTexts(VVOD);
    NotInTexts(VYVOD);
  }

  /** No "Vvod:" or "Vyvod:" is left. */
  predicate Clean(s: string) {
    !Has(s, VVOD) && !Has(s, VYVOD)
  }

  lemma UnifyCleans(t: string)
    ensures Clean(Unify(t))
  {
    Words();
    var bold := ReplaceAll(ReplaceAll(t, Bold(VVOD), INPUT), Bold(VYVOD), OUTPUT);
    var half := ReplaceAll(bold, VVOD, INPUT);
    NothingNew(bold, VVOD, INPUT, VVOD);
    NothingNew(half, VYVOD, OUTPUT, VVOD);
    NothingNew(half, VYVOD, OUTPUT, VYVOD);
  }

  lemma NoBoldWord(t: string, w: string)
    requires !Has(t, w)
    ensures !Has(t, Bold(w))
  {
    if Has(t, Bold(w)) {
      HasPart(t, "**", w, "**");
    }
  }

  lemma UnifyUnchanged(t: string)
    requires Clean(t)
    ensures Unify(t) == t
  {
    NoBoldWord(t, VVOD);
    NoBoldWord(t, VYVOD);
    NothingToReplace(t, Bold(VVOD), INPUT);
    NothingToReplace(t, Bold(VYVOD), OUTPUT);
    NothingToReplace(t, VVOD, INPUT);
    NothingToReplace(t, VYVOD, OUTPUT);
  }

  // ----- Which word becomes what -----

  /** A bold word would begin with asterisks, at or before which the plain word does not begin. */
  lemma NoBoldBegins(p: string, b: string, w: string)
    requires Russian(w) && NoneBegins(p, b, w) && (p == "" || p[|p| - 1] != '*')
    ensures NoneBegins(p, b, Bold(w))
  {
    var bold := Bold(w);
    forall i | 0 <= i < |p| ensures !(bold <= (p + b)[i..]) {
      if bold <= (p + b)[i..] {
        BoldAt(p + b, i, w);
      }
    }
  }

  lemma BoldAt(s: string, i: nat, w: string)
    requires i <= |s| && Bold(w) <= s[i..]
    ensures i + 2 <= |s| && s[i] == '*' && s[i + 1] == '*' && w <= s[i + 2..]
  {
    var bold := Bold(w);
    assert bold[0] == '*' && bold[1] == '*' && bold[2..] == w + "**";
    assert s[i + 2..] == s[i..][2..];
  }

  /** Two Russian words with what they become: bold texts without the first byte of the words. */
  ghost predicate Vocabulary(v: string, w: string, input: string, output: string) {
    && Russian(v) && Russian(w) && v[0] == w[0]
    && BoldText(input) && BoldText(output) && v[0] !in input && v[0] !in output
  }

  predicate BoldText(text: string) {
    && |text| > 4 && '\n' !in text && text[0] == '*' && text[1] == '*' && '*' !in text[2..|text| - 2]
    && text[|text| - 2..] == "**"
  }

  lemma BoldIsStarred(text: string)
    requires BoldText(text)
    ensures Starred(text)
  {
    assert text[|text| - 2..][1] == '*';
  }

  /** A text whose first part p none of the four replacements touches. */
  lemma UnifiedAfter(p: string, b: string, v: string, w: string, input: string, output: string)
    requires Vocabulary(v, w, input, output)
    requires NoneBegins(p, b, v) && NoneBegins(p, b, w) && (p == "" || p[|p| - 1] != '*')
    ensures Unified(p + b, v, w, input, output) == p + Unified(b, v, w, input, output)
  {
    hide ReplaceAll, NoneBegins, Bold, BoldText;
    BoldIsStarred(input);
    BoldIsStarred(output);
    BoldNotEmpty(v);
    BoldNotEmpty(w);
    var b1 := ReplaceAll(b, Bold(v), input);
    var b2 := ReplaceAll(b1, Bold(w), output);
    var b3 := ReplaceAll(b2, v, input);
    NoBoldBegins(p, b, v);
    ReplaceAfter(p, b, Bold(v), input);
    NoneBeginsStill(p, b, Bold(v), input, w);
    NoBoldBegins(p, b1, w);
    ReplaceAfter(p, b1, Bold(w), output);
    NoneBeginsStill(p, b, Bold(v), input, v);
    NoneBeginsStill(p, b1, Bold(w), output, v);
    ReplaceAfter(p, b2, v, input);
    NoneBeginsStill(p, b1, Bold(w), output, w);
    NoneBeginsStill(p, b2, v, input, w);
    ReplaceAfter(p, b3, w, output);
  }

  lemma BoldNotEmpty(w: string)
    ensures Bold(w) != "" && Bold(w)[0] == '*'
  {
  }

  lemma NotInside(p: string, b: string, w: string)
    requires w != "" && w[0] !in p
    ensures NoneBegins(p, b, w)
  {
  }

  /** The first word is replaced by its text, whatever comes after it. */
  lemma FirstUnified(b: string, v: string, w: string, input: string, output: string)
    requires Vocabulary(v, w, input, output)
    ensures Unified(v + b, v, w, input, output) == input + Unified(b, v, w, input, output)
  {
    hide ReplaceAll, NoneBegins, Bold, BoldText;
    BoldNotEmpty(v);
    BoldNotEmpty(w);
    var b1 := ReplaceAll(b, Bold(v), input);
    var b2 := ReplaceAll(b1, Bold(w), output);
    var b3 := ReplaceAll(b2, v, input);
    NotInside(v, b, Bold(v));
    ReplaceAfter(v, b, Bold(v), input);
    NotInside(v, b1, Bold(w));
    ReplaceAfter(v, b1, Bold(w), output);
    ReplaceHere(v, b2, input);
    NotInside(input, b3, w);
    ReplaceAfter(input, b3, w, output);
  }

  /** The first word begins nowhere inside the second one. */
  predicate Unlike(v: string, w: string) {
    && |v| >= 3 && |w| >= 3 && v[2] != w[2]
    && forall i :: 0 < i < |w| && w[i] == v[0] ==> i + 1 < |w| && w[i + 1] != v[1]
  }

  lemma UnlikeInside(v: string, w: string, b: string)
    requires Unlike(v, w)
    ensures NoneBegins(w, b, v)
  {
    forall i | 0 <= i < |w| ensures !(v <= (w + b)[i..]) {
      assert |(w + b)[i..]| >= 3 ==> (w + b)[i..][1] == (w + b)[i + 1] && (w + b)[i..][2] == (w + b)[i + 2];
    }
  }

  /** So is the second one. */
  lemma SecondUnified(b: string, v: string, w: string, input: string, output: string)
    requires Vocabulary(v, w, input, output) && Unlike(v, w)
    ensures Unified(w + b, v, w, input, output) == output + Unified(b, v, w, input, output)
  {
    hide ReplaceAll, NoneBegins, Bold, BoldText;
    BoldNotEmpty(v);
    BoldNotEmpty(w);
    var b1 := ReplaceAll(b, Bold(v), input);
    var b2 := ReplaceAll(b1, Bold(w), output);
    NotInside(w, b, Bold(v));
    ReplaceAfter(w, b, Bold(v), input);
    NotInside(w, b1, Bold(w));
    ReplaceAfter(w, b1, Bold(w), output);
    UnlikeInside(v, w, b2);
    ReplaceAfter(w, b2, v, input);
    ReplaceHere(w, ReplaceAll(b2, v, input), output);
  }

  /** What follows a bold word does not run into its closing asterisks. */
  predicate Apart(b: string, other: string) {
    (b == "" || b[0] != '*') && !(other <= b)
  }

  lemma StaysApart(b: string, word: string, text: string, other: string)
    requires Apart(b, other) && word != "" && word[0] == '*' && Starred(text) && other != "" && '*' !in other
    ensures Apart(ReplaceAll(b, word, text), other)
  {
    if other <= ReplaceAll(b, word, text) {
      Copied(b, word, text, other);
    }
  }

  /** A bold text has asterisks at its ends only, and no bold word begins at those. */
  lemma NoBoldInside(text: string, b: string, w: string)
    requires Apart(b, w) && Russian(w) && NoneBegins(text, b, w)
    requires |text| > 4 && text[0] == '*' && text[1] == '*' && '*' !in text[2..|text| - 2]
    ensures NoneBegins(text, b, Bold(w))
  {
    var n := |text|;
    forall i | 0 <= i < n ensures !(Bold(w) <= (text + b)[i..]) {
      assert (text + b)[n..] == b;
      assert forall k :: 2 <= k < n - 2 ==> text[2..n - 2][k - 2] == text[k];
      if Bold(w) <= (text + b)[i..] {
        BoldAt(text + b, i, w);
      }
    }
  }

  lemma FirstBoldUnified(b: string, v: string, w: string, input: string, output: string)
    requires Vocabulary(v, w, input, output) && Apart(b, w)
    ensures Unified(Bold(v) + b, v, w, input, output) == input + Unified(b, v, w, input, output)
  {
    hide ReplaceAll, NoneBegins, Apart, Bold;
    BoldIsStarred(input);
    BoldNotEmpty(v);
    BoldNotEmpty(w);
    var b1 := ReplaceAll(b, Bold(v), input);
    var b2 := ReplaceAll(b1, Bold(w), output);
    var b3 := ReplaceAll(b2, v, input);
    ReplaceHere(Bold(v), b, input);
    StaysApart(b, Bold(v), input, w);
    NotInside(input, b1, w);
    NoBoldInside(input, b1, w);
    ReplaceAfter(input, b1, Bold(w), output);
    NotInside(input, b2, v);
    ReplaceAfter(input, b2, v, input);
    NotInside(input, b3, w);
    ReplaceAfter(input, b3, w, output);
  }

  lemma SecondBoldUnified(b: string, v: string, w: string, input: string, output: string)
    requires Vocabulary(v, w, input, output) && Unlike(v, w) && Apart(b, v)
    ensures Unified(Bold(w) + b, v, w, input, output) == output + Unified(b, v, w, input, output)
  {
    hide ReplaceAll, NoneBegins, Apart, Bold, BoldText;
    BoldNotEmpty(v);
    BoldNotEmpty(w);
    var b1 := ReplaceAll(b, Bold(v), input);
    var b2 := ReplaceAll(b1, Bold(w), output);
    var b3 := ReplaceAll(b2, v, input);
    BoldOfWord(b, v, w);
    NoBoldInside(Bold(w), b, v);
    ReplaceAfter(Bold(w), b, Bold(v), input);
    ReplaceHere(Bold(w), b1, output);
    NotInside(output, b2, v);
    ReplaceAfter(output, b2, v, input);
    NotInside(output, b3, w);
    ReplaceAfter(output, b3, w, output);
  }

  lemma BoldOfWord(b: string, v: string, w: string)
    requires Russian(v) && Russian(w) && Unlike(v, w)
    ensures var text := Bold(w);
            && NoneBegins(text, b, v) && |text| > 4 && text[0] == '*' && text[1] == '*'
            && '*' !in text[2..|text| - 2]
  {
    var text := Bold(w);
    assert text[2..|text| - 2] == w;
    forall i | 0 <= i < |text| ensures !(v <= (text + b)[i..]) {
      var s := text + b;
      assert |s[i..]| >= 3 ==> s[i..][0] == s[i] && s[i..][1] == s[i + 1] && s[i..][2] == s[i + 2];
      assert 2 <= i < |text| - 2 ==> text[i] == w[i - 2];
      assert 2 <= i < |text| - 3 ==> text[i + 1] == w[i - 1];
      assert text[4] == w[2];
    }
  }

  lemma TheVocabulary()
    ensures Vocabulary(VVOD, VYVOD, INPUT, OUTPUT) && Unlike(VVOD, VYVOD)
  {
    assert INPUT[2..|INPUT| - 2] == "Input:" && INPUT[|INPUT| - 2..] == "**";
    assert OUTPUT[2..|OUTPUT| - 2] == "Output:" && OUTPUT[|OUTPUT| - 2..] == "**";
  }

  /**
   What the replacements mean, read from left to right: a part in which neither word begins is copied, the word for
   input becomes "**Input:**" and the one for output "**Output:**", and so do the bold words, with the asterisks they
   have.
   */
  lemma UnifyMeaning(p: string, b: string)
    ensures NoneBegins(p, b, VVOD) && NoneBegins(p, b, VYVOD) && (p == "" || p[|p| - 1] != '*') ==>
              Unify(p + b) == p + Unify(b)
    ensures Unify(VVOD + b) == "**Input:**" + Unify(b)
    ensures Unify(VYVOD + b) == "**Output:**" + Unify(b)
    ensures Apart(b, VYVOD) ==> Unify(Bold(VVOD) + b) == "**Input:**" + Unify(b)
    ensures Apart(b, VVOD) ==> Unify(Bold(VYVOD) + b) == "**Output:**" + Unify(b)
  {
    hide Unified, Vocabulary, Unlike, Apart, NoneBegins, Bold;
    TheVocabulary();
    if NoneBegins(p, b, VVOD) && NoneBegins(p, b, VYVOD) && (p == "" || p[|p| - 1] != '*') {
      UnifiedAfter(p, b, VVOD, VYVOD, INPUT, OUTPUT);
    }
    FirstUnified(b, VVOD, VYVOD, INPUT, OUTPUT);
    SecondUnified(b, VVOD, VYVOD, INPUT, OUTPUT);
    if Apart(b, VYVOD) {
      FirstBoldUnified(b, VVOD, VYVOD, INPUT, OUTPUT);
    }
    if Apart(b, VVOD) {
      SecondBoldUnified(b, VVOD, VYVOD, INPUT, OUTPUT);
    }
  }

  lemma {:induction false} HasCut(p: string, q: string, w: string)
    requires w != "" && '.' !in w && Has(p + "...", w)
    ensures Has(p + q, w)
  {
    var s := p + "...";
    if p == "" {
      assert s == "...";
      assert w[0] in w;
      HasFirst(s, w);
    } else if w <= s {
      assert s[..|w|] == w;
      BeforeDots(p, |w|);
    } else {
      assert s[1..] == p[1..] + "..." && (p + q)[1..] == p[1..] + q;
      HasCut(p[1..], q, w);
    }
  }

  lemma TruncateHas(s: string, max: nat, w: string)
    requires Russian(w) && !Has(s, w)
    ensures !Has(Truncate(s, max), w)
  {
    if |s| > max {
      assert s == s[..max] + s[max..];
      if Has(s[..max] + "...", w) {
        HasCut(s[..max], s[max..], w);
      }
    }
  }

  // ----- Main results -----

  lemma UnifyTrimmed(t: string)
    requires Trimmed(t)
    ensures Trimmed(Unify(t))
  {
    hide Trimmed, HasHeader, Has, TrimSpace, Headers, ReplaceAll, Starred, Russian;
    Words();
    var a := ReplaceAll(t, Bold(VVOD), INPUT);
    var b := ReplaceAll(a, Bold(VYVOD), OUTPUT);
    ReplacedTrimmed(t, Bold(VVOD), INPUT);
    ReplacedTrimmed(a, Bold(VYVOD), OUTPUT);
    ReplacedTrimmed(b, VVOD, INPUT);
    ReplacedTrimmed(ReplaceAll(b, VVOD, INPUT), VYVOD, OUTPUT);
  }

  lemma UnifyFlat(t: string)
    requires !HasHeader(t)
    ensures !HasHeader(Unify(t))
  {
    hide Trimmed, HasHeader, Has, TrimSpace, Headers, ReplaceAll, Starred, Russian;
    Words();
    var a := ReplaceAll(t, Bold(VVOD), INPUT);
    var b := ReplaceAll(a, Bold(VYVOD), OUTPUT);
    NoHeaderReplaced(t, Bold(VVOD), INPUT);
    NoHeaderReplaced(a, Bold(VYVOD), OUTPUT);
    NoHeaderReplaced(b, VVOD, INPUT);
    NoHeaderReplaced(ReplaceAll(b, VVOD, INPUT), VYVOD, OUTPUT);
  }

  lemma DescriptionTidy(s: string)
    ensures Trimmed(Description(s)) && Clean(Description(s)) && !HasHeader(Description(s))
  {
    hide Trimmed, HasHeader, Has, TrimSpace, Headers, ReplaceAll, Starred, Russian;
    var headers := Headers(TrimSpace(s));
    var unified := Unify(headers);
    HeadersTrimmed(TrimSpace(s));
    UnifyTrimmed(headers);
    TruncateTrimmed(unified, FIELD_MAX);
    HeadersFlat(TrimSpace(s));
    UnifyFlat(headers);
    NoHeaderTruncated(unified, FIELD_MAX);
    UnifyCleans(headers);
    RussianWords();
    TruncateHas(unified, FIELD_MAX, VVOD);
    TruncateHas(unified, FIELD_MAX, VYVOD);
  }

  /** No line of a normalised description starts with "###", and neither "Vvod:" nor "Vyvod:" occurs in it. */
  lemma DescriptionContents(s: string)
    ensures forall line :: line in Split(Description(s), '\n') ==> !("###" <= TrimSpace(line))
    ensures !Has(Description(s), VVOD) && !Has(Description(s), VYVOD)
  {
    hide Description, TrimSpace, Has, HeaderHere, HeaderBelow, Join, Split;
    var lines := Split(Description(s), '\n');
    DescriptionTidy(s);
    JoinSplit(Description(s), '\n');
    HeadersByLine(lines);
    forall line | line in lines ensures !DeepHeader(line) {
      var i :| 0 <= i < |lines| && lines[i] == line;
    }
  }

  /** A description that is tidy already stays as it is. */
  lemma DescriptionUnchanged(d: string)
    requires Trimmed(d) && !HasHeader(d) && !Has(d, VVOD) && !Has(d, VYVOD) && |d| <= FIELD_MAX
    ensures Description(d) == d
  {
    hide Trimmed, HasHeader, Has, Headers, Unified;
    HeadersUnchanged(d);
    UnifyUnchanged(d);
  }

  /** Normalising a description twice is normalising it once, even when it was cut short. */
  lemma DescriptionIdempotent(s: string)
    ensures Description(Description(s)) == Description(s)
  {
    hide Trimmed, HasHeader, Has, TrimSpace, Headers, ReplaceAll, Starred, Russian;
    var d := Description(s);
    DescriptionTidy(s);
    HeadersUnchanged(d);
    UnifyUnchanged(d);
    TruncateTwice(Unify(Headers(TrimSpace(s))), FIELD_MAX);
  }

  /** An example is kept if and only if neither its input nor its output is white space only. */
  lemma ExamplesMeaning(s: seq<Example>, e: Example)
    ensures e in Examples(s) <==> e in s && !AllSpace(e.input) && !AllSpace(e.output)
  {
    hide AllSpace, TrimSpace;
    BlankIsSpace(e.input);
    BlankIsSpace(e.output);
  }

  lemma BlankIsSpace(s: string)
    ensures TrimSpace(s) == "" <==> AllSpace(s)
  {
    hide SpacePrefix, SpaceSuffix;
    if AllSpace(s) {
      assert s + "" == s;
      SpaceIsRemoved(s, "");
    }
    if TrimSpace(s) == "" {
      OnlySpace(s);
    }
  }

  lemma OnlySpace(s: string)
    requires TrimSpace(s) == ""
    ensures AllSpace(s)
  {
    hide AllSpace, IsSpaceRune;
    RemovedIsSpace(s);
    var t := TrimLeftSpace(s);
    if t != "" {
      RemovedAtEnd(t);
      assert t[|TrimRightSpace(t)|..] == t;
      StartsWithSpace(t);
      assert false;
    }
    assert s[..|s| - |t|] == s;
  }

  lemma StartsWithSpace(t: string)
    requires t != "" && AllSpace(t)
    ensures SpacePrefix(t) > 0
  {
  }

  lemma ExamplesIdempotent(s: seq<Example>)
    ensures Examples(Examples(s)) == Examples(s)
  {
    FilterAll(Examples(s), (e: Example) => TrimSpace(e.input) != "" && TrimSpace(e.output) != "");
  }

  predicate AllTrimmed(s: seq<string>) {
    s == [] || (AllTrimmed(s[..|s| - 1]) && s[|s| - 1] != "" && TrimSpace(s[|s| - 1]) == s[|s| - 1])
  }

  lemma {:induction false} ConstraintsTrimmed(s: seq<string>)
    ensures AllTrimmed(Compact(s))
  {
    if s != [] {
      ConstraintsTrimmed(s[..|s| - 1]);
      TrimTwice(s[|s| - 1]);
      var init := Compact(s[..|s| - 1]);
      assert (init + [TrimSpace(s[|s| - 1])])[..|init|] == init;
    }
  }

  lemma TrimTwice(s: string)
    ensures TrimSpace(TrimSpace(s)) == TrimSpace(s)
  {
  }

  lemma {:induction false} TrimmedConstraints(s: seq<string>)
    requires AllTrimmed(s)
    ensures Compact(s) == s
  {
    hide TrimSpace;
    if s != [] {
      TrimmedConstraints(s[..|s| - 1]);
      assert s == s[..|s| - 1] + [s[|s| - 1]];
    }
  }

  lemma ConstraintsIdempotent(s: seq<string>)
    ensures Compact(Compact(s)) == Compact(s)
  {
    ConstraintsTrimmed(s);
    TrimmedConstraints(Compact(s));
  }

  // ----- The task -----

  /** What Process may make of the tags: each once, ordered by their lower-case form. */
  ghost predicate TagsFrom(before: seq<string>, after: seq<string>, lower: string -> string) {
    multiset(after) == multiset(Firsts(before)) && StringOrder.Sorted(after, lower)
  }

  method NormalizeField(s: string, max: nat) returns (r: string)
    ensures r == Field(s, max)
  {
    r := TrimSpace(s);
    r := Truncate(r, max);
  }

  /** The steps of Process on the description. */
  method NormalizeDescription(s: string) returns (r: string)
    ensures r == Description(s)
  {
    r := TrimSpace(s);
    r := NormalizeMarkdownHeaders(r);
    r := Unify(r);
    r := Truncate(r, FIELD_MAX);
  }

  class Task {
    var title: string
    var description: string
    var sourceUrl: string
    var sourceHash: string
    var examples: seq<Example>
    var tags: seq<string>
    var constraints: seq<string>

    constructor (title: string, description: string, sourceUrl: string, sourceHash: string)
      ensures this.title == title && this.description == description
      ensures this.sourceUrl == sourceUrl && this.sourceHash == sourceHash
      ensures examples == [] && tags == [] && constraints == []
    {
      this.title, this.description, this.sourceUrl, this.sourceHash := title, description, sourceUrl, sourceHash;
      examples, tags, constraints := [], [], [];
    }

    /** Steps 1 to 3 and 6 of Process. */
    method NormalizeTexts()
      modifies this`title, this`description, this`sourceUrl, this`sourceHash
      ensures title == Field(old(title), TITLE_MAX) && sourceUrl == Field(old(sourceUrl), URL_MAX)
      ensures description == Description(old(description)) && sourceHash == TrimSpace(old(sourceHash))
    {
      hide *;
      var newTitle := NormalizeField(title, TITLE_MAX);
      var newUrl := NormalizeField(sourceUrl, URL_MAX);
      var newDescription := NormalizeDescription(description);
      title, description, sourceUrl, sourceHash := newTitle, newDescription, newUrl, TrimSpace(sourceHash);
    }

    /** Steps 4, 5 and 7 of Process. */
    method NormalizeLists(lower: string -> string)
      modifies this`examples, this`tags, this`constraints
      ensures examples == Examples(old(examples)) && constraints == Compact(old(constraints))
      ensures TagsFrom(old(tags), tags, lower)
    {
      hide *;
      var newTags := tags;
      if |tags| > 0 {
        newTags := NormalizeTags(tags, lower);
      } else {
        NoTags(lower);
      }
      var newConstraints := CleanConstraints(constraints);
      examples, tags, constraints := Examples(examples), newTags, newConstraints;
    }

    /** Process */
    method Process(lower: string -> string)
      modifies this
      ensures title == Field(old(title), TITLE_MAX) && sourceUrl == Field(old(sourceUrl), URL_MAX)
      ensures description == Description(old(description)) && sourceHash == TrimSpace(old(sourceHash))
      ensures examples == Examples(old(examples)) && constraints == Compact(old(constraints))
      ensures TagsFrom(old(tags), tags, lower)
    {
      hide *;
      NormalizeTexts();
      NormalizeLists(lower);
    }
  }

  /** sort.Slice is not stable; all it promises is an ordered permutation. */
  method SortTags(tags: seq<string>, lower: string -> string) returns (r: seq<string>)
    ensures multiset(r) == multiset(tags) && StringOrder.Sorted(r, lower)
  {
    r := StringOrder.Sort(tags, lower);
    StringOrder.SortSorted(tags, lower);
  }

  /** Step 5 of Process. */
  method NormalizeTags(tags: seq<string>, lower: string -> string) returns (r: seq<string>)
    ensures TagsFrom(tags, r, lower)
  {
    r := SortTags(Firsts(tags), lower);
  }

  lemma NoTags(lower: string -> string)
    ensures TagsFrom([], [], lower)
  {
  }

  method CleanConstraints(constraints: seq<string>) returns (r: seq<string>)
    ensures r == Compact(constraints)
  {
    r := [];
    for i := 0 to |constraints|
      invariant r == Compact(constraints[..i])
    {
      assert constraints[..i + 1][..i] == constraints[..i];
      var c := TrimSpace(constraints[i]);
      if c != "" {
        r := r + [c];
      }
    }
    assert constraints[..|constraints|] == constraints;
  }

  lemma TagsAreSet(before: seq<string>, after: seq<string>, lower: string -> string)
    requires TagsFrom(before, after, lower)
    ensures Distinct(after) && forall x :: x in after <==> x in before
  {
    FirstsDistinct(before);
    var firsts := Firsts(before);
    assert forall x :: x in after <==> x in multiset(after);
    assert forall x :: x in firsts <==> x in multiset(firsts);
    DistinctPermutation(firsts, after);
  }

  lemma {:induction false} DistinctCounts<T>(s: seq<T>, x: T)
    requires Distinct(s)
    ensures multiset(s)[x] <= 1
  {
    if s != [] {
      var init, last := s[..|s| - 1], s[|s| - 1];
      DistinctCounts(init, x);
      assert s == init + [last];
      if last == x {
        assert x !in init;
        assert x !in multiset(init);
      }
    }
  }

  lemma TwoCounts<T>(s: seq<T>, i: nat, j: nat)
    requires i < j < |s| && s[i] == s[j]
    ensures multiset(s)[s[i]] >= 2
  {
    assert s == s[..j] + [s[j]] + s[j + 1..];
    assert s[i] in s[..j];
    assert multiset(s[..j])[s[i]] >= 1;
  }

  lemma DistinctPermutation<T>(a: seq<T>, b: seq<T>)
    requires Distinct(a) && multiset(a) == multiset(b)
    ensures Distinct(b)
  {
    forall i, j | 0 <= i < j < |b| ensures b[i] != b[j] {
      DistinctCounts(a, b[i]);
      if b[i] == b[j] {
        TwoCounts(b, i, j);
      }
    }
  }

  /**
   Tags come out without duplicates, as the same set, in order of their lower-case forms; and when no two different tags
   have the same lower-case form the result is fixed, so that a second run changes nothing.
   */
  lemma TagsNormalised(before: seq<string>, after: seq<string>, again: seq<string>, lower: string -> string)
    requires TagsFrom(before, after, lower) && TagsFrom(after, again, lower)
    ensures Distinct(after) && (forall x :: x in after <==> x in before) && StringOrder.Sorted(after, lower)
    ensures multiset(again) == multiset(after)
    ensures StringOrder.KeysDiffer(before, lower) ==> again == after
  {
    TagsAreSet(before, after, lower);
    FirstsOfDistinct(after);
    if StringOrder.KeysDiffer(before, lower) {
      assert StringOrder.KeysDiffer(again, lower) by {
        TagsAreSet(after, again, lower);
      }
      StringOrder.SortedUnique(again, after, lower);
    }
  }

  /** The tags of a task have only one possible result if and only if no two of them share a lower-case form. */
  lemma {:induction false} TagsFixedIff(before: seq<string>, lower: string -> string)
    ensures StringOrder.KeysDiffer(before, lower)
       <==> forall a, b :: TagsFrom(before, a, lower) && TagsFrom(before, b, lower) ==> a == b
  {
    hide StringOrder.Sorted, StringOrder.Sort, Firsts, Distinct;
    if StringOrder.KeysDiffer(before, lower) {
      forall a, b | TagsFrom(before, a, lower) && TagsFrom(before, b, lower) ensures a == b {
        TagsAreSet(before, a, lower);
        StringOrder.SortedUnique(a, b, lower);
      }
    } else {
      var x, y :| x in before && y in before && lower(x) == lower(y) && x != y;
      var a := StringOrder.Sort(Firsts(before), lower);
      StringOrder.SortSorted(Firsts(before), lower);
      TagsAreSet(before, a, lower);
      var b := StringOrder.SortedTwoWays(a, lower, x, y);
      assert TagsFrom(before, a, lower) && TagsFrom(before, b, lower);
    }
  }

  lemma {:induction false} FirstsOfDistinct<T(!new)>(s: seq<T>)
    requires Distinct(s)
    ensures Firsts(s) == s
  {
    if s != [] {
      FirstsOfDistinct(s[..|s| - 1]);
      assert s == s[..|s| - 1] + [s[|s| - 1]];
    }
  }
}
