/**
 Reading a Codeforces problem from the reader's Markdown: its lines, its sections, and the pairs of example input and
 output. Strings are byte strings.
 */
module ReaderExamples {
  import opened Text

  datatype Example = Example(input: string, output: string)

  const INPUT: string := "Input"
  const OUTPUT: string := "Output"
  const COPY: string := "Copy"
  const NOTE: string := "Note"
  const EXAMPLES: string := "Examples"

  /** strings.EqualFold with an ASCII word: besides the two cases, the long s folds to s and the Kelvin sign to k. */
  predicate EqualFold(s: string, word: string)
    decreases |word|
  {
    if word == "" then s == ""
    else
      || (s != "" && LowerChar(s[0]) == LowerChar(word[0]) && EqualFold(s[1..], word[1..]))
      || ("\U{C5}\U{BF}" <= s && LowerChar(word[0]) == 's' && EqualFold(s[2..], word[1..]))
      || ("\U{E2}\U{84}\U{AA}" <= s && LowerChar(word[0]) == 'k' && EqualFold(s[3..], word[1..]))
  }

  /** Among ASCII strings: equal up to letter case. */
  lemma {:induction false} FoldMeaning(s: string, word: string)
    requires forall i :: 0 <= i < |s| ==> s[i] < '\U{80}'
    ensures EqualFold(s, word) <==> |s| == |word| && forall i :: 0 <= i < |s| ==> LowerChar(s[i]) == LowerChar(word[i])
  {
    if s != "" && word != "" {
      FoldMeaning(s[1..], word[1..]);
      assert forall i :: 0 < i < |s| ==> s[i] == s[1..][i - 1];
      if |s| == |word| {
        assert forall i :: 0 < i < |s| ==> word[i] == word[1..][i - 1];
        assert forall i :: 0 <= i < |s| - 1 ==> s[1..][i] == s[i + 1] && word[1..][i] == word[i + 1];
      }
    }
  }

  /** The two characters outside ASCII that fold to a letter. */
  lemma FoldBeyondAscii(rest: string, word: string)
    requires word != "" && EqualFold(rest, word[1..])
    ensures word[0] == 's' || word[0] == 'S' ==> EqualFold("\U{C5}\U{BF}" + rest, word)
    ensures word[0] == 'k' || word[0] == 'K' ==> EqualFold("\U{E2}\U{84}\U{AA}" + rest, word)
  {
    assert ("\U{C5}\U{BF}" + rest)[2..] == rest;
    assert ("\U{E2}\U{84}\U{AA}" + rest)[3..] == rest;
  }

  predicate IsInput(line: string) {
    EqualFold(line, INPUT)
  }

  predicate IsOutput(line: string) {
    EqualFold(line, OUTPUT)
  }

  predicate IsCopy(line: string) {
    EqualFold(line, COPY)
  }

  /** What ends the output of an example. */
  predicate IsEnd(line: string) {
    EqualFold(line, INPUT) || EqualFold(line, NOTE)
  }

  // ----- The example parser as a function -----

  /** Index of the first line that satisfies p, or the number of lines. */
  function Find(lines: seq<string>, p: string -> bool): (i: nat)
    ensures i <= |lines|
    ensures i < |lines| ==> p(lines[i])
    ensures forall k :: 0 <= k < i ==> !p(lines[k])
  {
    if lines == [] || p(lines[0]) then 0 else 1 + Find(lines[1..], p)
  }

  function SkipCopy(lines: seq<string>): seq<string> {
    if lines != [] && IsCopy(lines[0]) then lines[1..] else lines
  }

  predicate Blank(s: string) {
    TrimSpace(s) == ""
  }

  function Keep(input: string, output: string): seq<Example> {
    if Blank(input) || Blank(output) then [] else [Example(input, output)]
  }

  /** The examples in some lines: look for "Input". */
  function Parse(lines: seq<string>): seq<Example>
    decreases |lines|, 1
  {
    var i := Find(lines, IsInput);
    if i == |lines| then [] else ParseInput(lines[i + 1..])
  }

  /** What follows "Input": the input up to "Output", the output up to the next "Input" or "Note", and so on. */
  function ParseInput(lines: seq<string>): seq<Example>
    decreases |lines|, 0
  {
    var body := SkipCopy(lines);
    var o := Find(body, IsOutput);
    if o == |body| then []
    else
      var rest := SkipCopy(body[o + 1..]);
      var e := Find(rest, IsEnd);
      Keep(Join(body[..o], "\n"), Join(rest[..e], "\n")) + Parse(rest[e..])
  }

  // ----- The example parser as the code runs it -----

  /** One of the loops that advance the shared index. */
  method Advance(lines: seq<string>, start: nat, p: string -> bool) returns (index: nat)
    requires start <= |lines|
    ensures index == start + Find(lines[start..], p)
  {
    index := start;
    while index < |lines| && !p(lines[index])
      invariant start <= index <= |lines|
      invariant start + Find(lines[start..], p) == index + Find(lines[index..], p)
    {
      assert lines[index..][1..] == lines[index + 1..];
      index := index + 1;
    }
  }

  method SkipCopyAt(lines: seq<string>, start: nat) returns (index: nat)
    requires start <= |lines|
    ensures start <= index <= |lines| && lines[index..] == SkipCopy(lines[start..])
  {
    index := start;
    if index < |lines| && IsCopy(lines[index]) {
      index := index + 1;
    }
  }

  /** parseReaderExamples */
  method ParseReaderExamples(lines: seq<string>) returns (examples: seq<Example>)
    ensures examples == Parse(lines)
  {
    hide *;
    examples := [];
    var index: nat := 0;
    assert lines[0..] == lines;
    NoLines();
    while index < |lines|
      invariant index <= |lines|
      invariant Parse(lines) == examples + Parse(lines[index..])
      decreases |lines| - index
    {
      var found := Advance(lines, index, IsInput);
      NextInput(lines, index, found);
      if found == |lines| {
        return;
      }
      var inputStart := SkipCopyAt(lines, found + 1);
      var inputEnd := Advance(lines, inputStart, IsOutput);
      if inputEnd >= |lines| {
        NoOutput(lines, found + 1, inputStart);
        return;
      }
      var input := Join(lines[inputStart..inputEnd], "\n");
      var outputStart := SkipCopyAt(lines, inputEnd + 1);
      index := Advance(lines, outputStart, IsEnd);
      var output := Join(lines[outputStart..index], "\n");
      OneExample(lines, found + 1, inputStart, inputEnd, outputStart, index);
      examples := examples + Keep(input, output);
    }
    assert lines[index..] == [];
  }

  lemma NoLines()
    ensures Parse([]) == []
  {
  }

  lemma NextInput(lines: seq<string>, index: nat, found: nat)
    requires index <= found <= |lines| && found == index + Find(lines[index..], IsInput)
    ensures Parse(lines[index..]) == if found == |lines| then [] else ParseInput(lines[found + 1..])
  {
    hide ParseInput, IsInput;
    assert found < |lines| ==> lines[index..][found - index + 1..] == lines[found + 1..];
  }

  lemma NoOutput(lines: seq<string>, start: nat, inputStart: nat)
    requires start <= inputStart <= |lines| && lines[inputStart..] == SkipCopy(lines[start..])
    requires inputStart + Find(lines[inputStart..], IsOutput) == |lines|
    ensures ParseInput(lines[start..]) == []
  {
    hide IsOutput;
  }

  lemma OneExample(lines: seq<string>, start: nat, inputStart: nat, inputEnd: nat, outputStart: nat, end: nat)
    requires start <= inputStart <= inputEnd < outputStart <= end <= |lines|
    requires lines[inputStart..] == SkipCopy(lines[start..])
    requires inputEnd == inputStart + Find(lines[inputStart..], IsOutput)
    requires lines[outputStart..] == SkipCopy(lines[inputEnd + 1..])
    requires end == outputStart + Find(lines[outputStart..], IsEnd)
    ensures ParseInput(lines[start..])
         == Keep(Join(lines[inputStart..inputEnd], "\n"), Join(lines[outputStart..end], "\n")) + Parse(lines[end..])
  {
    hide IsOutput, IsEnd, Join, SkipCopy, Keep, Find, Parse;
    SliceOfSuffix(lines, inputStart, inputEnd);
    SliceOfSuffix(lines, inputStart, inputEnd + 1);
    SliceOfSuffix(lines, outputStart, end);
  }

  lemma SliceOfSuffix(lines: seq<string>, a: nat, b: nat)
    requires a <= b <= |lines|
    ensures lines[a..][..b - a] == lines[a..b] && lines[a..][b - a..] == lines[b..]
  {
  }

  // ----- Round trip -----

  /** An example as the reader shows it; the flags say whether a "Copy" line stands before its parts. */
  datatype Shown = Shown(input: seq<string>, output: seq<string>, copyInput: bool, copyOutput: bool)

  function Part(heading: string, copy: bool, lines: seq<string>): seq<string> {
    [heading] + (if copy then [COPY] else []) + lines
  }

  function Render(x: Shown): seq<string> {
    Part(INPUT, x.copyInput, x.input) + Part(OUTPUT, x.copyOutput, x.output)
  }

  function RenderAll(xs: seq<Shown>): seq<string> {
    if xs == [] then [] else Render(xs[0]) + RenderAll(xs[1..])
  }

  function Meant(x: Shown): Example {
    Example(Join(x.input, "\n"), Join(x.output, "\n"))
  }

  function AllMeant(xs: seq<Shown>): (r: seq<Example>)
    ensures |r| == |xs|
    ensures forall i :: 0 <= i < |xs| ==> r[i] == Meant(xs[i])
  {
    seq(|xs|, i requires 0 <= i < |xs| => Meant(xs[i]))
  }

  /** Content that is not taken for a "Copy" line. */
  predicate NoStrayCopy(copy: bool, lines: seq<string>) {
    copy || lines == [] || !IsCopy(lines[0])
  }

  predicate None(lines: seq<string>, p: string -> bool) {
    forall i :: 0 <= i < |lines| ==> !p(lines[i])
  }

  /** The content lines avoid the markers, and neither part is blank. */
  predicate WellFormed(x: Shown) {
    && None(x.input, IsOutput) && NoStrayCopy(x.copyInput, x.input)
    && None(x.output, IsEnd) && NoStrayCopy(x.copyOutput, x.output)
    && !Blank(Join(x.input, "\n")) && !Blank(Join(x.output, "\n"))
  }

  lemma Markers()
    ensures IsInput(INPUT) && IsEnd(INPUT) && IsOutput(OUTPUT) && IsCopy(COPY) && !IsCopy(INPUT) && !IsCopy(OUTPUT)
  {
    InputIs();
    OutputIs();
    CopyIs();
  }

  lemma InputIs()
    ensures EqualFold(INPUT, INPUT) && !EqualFold(INPUT, COPY)
  {
    FoldsToItself(INPUT);
    assert LowerChar(INPUT[0]) != LowerChar(COPY[0]);
  }

  lemma OutputIs()
    ensures EqualFold(OUTPUT, OUTPUT) && !EqualFold(OUTPUT, COPY)
  {
    FoldsToItself(OUTPUT);
    assert LowerChar(OUTPUT[0]) != LowerChar(COPY[0]);
  }

  lemma CopyIs()
    ensures EqualFold(COPY, COPY)
  {
    FoldsToItself(COPY);
  }

  lemma {:induction false} FoldsToItself(word: string)
    ensures EqualFold(word, word)
  {
    if word != "" {
      FoldsToItself(word[1..]);
    }
  }

  lemma {:induction false} FindAt(a: seq<string>, b: seq<string>, p: string -> bool)
    requires None(a, p) && (b == [] || p(b[0]))
    ensures Find(a + b, p) == |a|
  {
    if a == [] {
      assert a + b == b;
    } else {
      FindAt(a[1..], b, p);
      assert (a + b)[1..] == a[1..] + b;
    }
  }

  /** The lines of a part as the parser sees them: without a "Copy" line of its own, a first line "Copy" is dropped. */
  function Content(copy: bool, lines: seq<string>): seq<string> {
    if copy then lines else SkipCopy(lines)
  }

  lemma SkipsCopy(copy: bool, lines: seq<string>, rest: seq<string>)
    requires rest == [] || !IsCopy(rest[0])
    ensures SkipCopy((if copy then [COPY] else []) + lines + rest) == Content(copy, lines) + rest
  {
    hide EqualFold;
    Markers();
    if copy {
      assert ([COPY] + lines + rest)[1..] == lines + rest;
    } else {
      assert [] + lines + rest == lines + rest;
      if lines != [] {
        assert (lines + rest)[1..] == lines[1..] + rest;
      }
    }
  }

  /** What may follow an example: nothing, or the next one. */
  predicate EndsExample(rest: seq<string>) {
    rest == [] || (IsEnd(rest[0]) && !IsCopy(rest[0]))
  }

  lemma PartAt(heading: string, copy: bool, lines: seq<string>, rest: seq<string>)
    ensures Part(heading, copy, lines) + rest != []
    ensures (Part(heading, copy, lines) + rest)[0] == heading
    ensures (Part(heading, copy, lines) + rest)[1..] == (if copy then [COPY] else []) + lines + rest
  {
  }

  lemma OutputPart(x: Shown, rest: seq<string>)
    requires None(Content(x.copyOutput, x.output), IsEnd) && EndsExample(rest)
    ensures var after, content :=
            SkipCopy((Part(OUTPUT, x.copyOutput, x.output) + rest)[1..]), Content(x.copyOutput, x.output);
            Find(after, IsEnd) == |content| && after == content + rest
  {
    hide IsCopy, IsEnd, SkipCopy, Find;
    PartAt(OUTPUT, x.copyOutput, x.output, rest);
    SkipsCopy(x.copyOutput, x.output, rest);
    FindAt(Content(x.copyOutput, x.output), rest, IsEnd);
  }

  lemma InputPart(x: Shown, tail: seq<string>)
    requires None(Content(x.copyInput, x.input), IsOutput)
    requires tail != [] && IsOutput(tail[0]) && !IsCopy(tail[0])
    ensures var body, content :=
            SkipCopy((Part(INPUT, x.copyInput, x.input) + tail)[1..]), Content(x.copyInput, x.input);
            Find(body, IsOutput) == |content| && body == content + tail
  {
    hide IsCopy, IsOutput, SkipCopy, Find;
    PartAt(INPUT, x.copyInput, x.input, tail);
    SkipsCopy(x.copyInput, x.input, tail);
    FindAt(Content(x.copyInput, x.input), tail, IsOutput);
  }

  lemma ParseHeading(lines: seq<string>)
    requires lines != [] && IsInput(lines[0])
    ensures Parse(lines) == ParseInput(lines[1..])
  {
    hide IsInput, ParseInput;
  }

  function Seen(x: Shown): seq<Example> {
    Keep(Join(Content(x.copyInput, x.input), "\n"), Join(Content(x.copyOutput, x.output), "\n"))
  }

  /** An example at the front is parsed, and parsing goes on behind it. */
  lemma ParseFront(x: Shown, rest: seq<string>)
    requires None(Content(x.copyInput, x.input), IsOutput)
    requires None(Content(x.copyOutput, x.output), IsEnd) && EndsExample(rest)
    ensures Parse(Render(x) + rest) == Seen(x) + Parse(rest)
  {
    hide IsInput, IsOutput, IsCopy, IsEnd, SkipCopy, Find, Part, Seen, Content;
    var tail := Part(OUTPUT, x.copyOutput, x.output) + rest;
    var head := Part(INPUT, x.copyInput, x.input);
    Markers();
    PartAt(INPUT, x.copyInput, x.input, tail);
    PartAt(OUTPUT, x.copyOutput, x.output, rest);
    InputPart(x, tail);
    OutputPart(x, rest);
    assert Render(x) + rest == head + tail;
    ParseHeading(head + tail);
    FrontParsed((head + tail)[1..], x, tail, rest);
  }

  lemma FrontParsed(lines: seq<string>, x: Shown, tail: seq<string>, rest: seq<string>)
    requires tail != []
    requires var body, content := SkipCopy(lines), Content(x.copyInput, x.input);
             Find(body, IsOutput) == |content| && body == content + tail
    requires var after, content := SkipCopy(tail[1..]), Content(x.copyOutput, x.output);
             Find(after, IsEnd) == |content| && after == content + rest
    ensures ParseInput(lines) == Seen(x) + Parse(rest)
  {
    hide IsInput, IsOutput, IsCopy, IsEnd, SkipCopy, Find, Keep, Join, Parse, Content;
    var body, content := SkipCopy(lines), Content(x.copyInput, x.input);
    assert body[..|content|] == content && body[|content| + 1..] == tail[1..];
    var after, shown := SkipCopy(tail[1..]), Content(x.copyOutput, x.output);
    assert after[..|shown|] == shown && after[|shown|..] == rest;
  }

  lemma RenderedEnds(xs: seq<Shown>)
    ensures EndsExample(RenderAll(xs))
  {
    hide EqualFold;
    Markers();
    if xs != [] {
      assert RenderAll(xs)[0] == INPUT;
    }
  }

  lemma ContentAsIs(copy: bool, lines: seq<string>)
    ensures NoStrayCopy(copy, lines) ==> Content(copy, lines) == lines
    ensures !NoStrayCopy(copy, lines) ==> Content(copy, lines) == lines[1..] && IsCopy(lines[0])
  {
    hide IsCopy;
  }

  lemma WellFormedSeen(x: Shown)
    requires WellFormed(x)
    ensures Seen(x) == [Meant(x)]
    ensures Content(x.copyInput, x.input) == x.input && Content(x.copyOutput, x.output) == x.output
  {
    hide IsInput, IsOutput, IsEnd, Join, Content, Blank, NoStrayCopy;
    ContentAsIs(x.copyInput, x.input);
    ContentAsIs(x.copyOutput, x.output);
  }

  /** Round trip: rendering any list of well-formed examples and parsing it gives the list back. */
  lemma {:induction false} ParseRendered(xs: seq<Shown>)
    requires forall i :: 0 <= i < |xs| ==> WellFormed(xs[i])
    ensures Parse(RenderAll(xs)) == AllMeant(xs)
  {
    hide Blank, IsInput, IsOutput, IsEnd, Join, Find, ParseInput, Content, Seen, Meant;
    if xs == [] {
      NoLines();
    } else {
      ParseRendered(xs[1..]);
      RenderedEnds(xs[1..]);
      WellFormedSeen(xs[0]);
      ParseFront(xs[0], RenderAll(xs[1..]));
      assert AllMeant(xs) == [Meant(xs[0])] + AllMeant(xs[1..]);
    }
  }

  /** Where the examples of a page end: at a note, after which lines that start no example count for nothing. */
  lemma {:induction false} NoteEndsExamples(xs: seq<Shown>, note: seq<string>)
    requires forall i :: 0 <= i < |xs| ==> WellFormed(xs[i])
    requires note == [] || note[0] == "Note"
    requires forall k :: 0 < k < |note| ==> !EqualFold(note[k], "Input")
    ensures Parse(RenderAll(xs) + note) == AllMeant(xs)
  {
    hide Blank, IsInput, IsOutput, IsEnd, Join, Find, Parse, ParseInput, Content, Seen, Meant, EqualFold, Render, None,
        NoStrayCopy, EndsExample;
    if xs == [] {
      assert RenderAll(xs) + note == note;
      NothingAfterNote(note);
    } else {
      var rest := RenderAll(xs[1..]) + note;
      NoteEndsExamples(xs[1..], note);
      EndsBeforeNote(xs[1..], note);
      WellFormedSeen(xs[0]);
      ParseFront(xs[0], rest);
      assert RenderAll(xs) + note == Render(xs[0]) + rest;
      assert AllMeant(xs) == [Meant(xs[0])] + AllMeant(xs[1..]);
    }
  }

  lemma NoteIs()
    ensures IsEnd("Note") && !IsCopy("Note") && !EqualFold("Note", "Input")
  {
    FoldsToItself(NOTE);
    FoldMeaning("Note", COPY);
    FoldMeaning("Note", INPUT);
    assert LowerChar("Note"[0]) != LowerChar(COPY[0]);
  }

  lemma NothingAfterNote(note: seq<string>)
    requires note == [] || note[0] == "Note"
    requires forall k :: 0 < k < |note| ==> !EqualFold(note[k], "Input")
    ensures Parse(note) == []
  {
    hide EqualFold;
    NoteIs();
    forall k | 0 <= k < |note| ensures !IsInput(note[k]) {
      assert k == 0 ==> note[k] == "Note";
    }
    FindNone(note, IsInput);
  }

  lemma EndsBeforeNote(xs: seq<Shown>, note: seq<string>)
    requires note == [] || note[0] == "Note"
    ensures EndsExample(RenderAll(xs) + note)
  {
    hide EqualFold, IsEnd, IsCopy;
    NoteIs();
    RenderedEnds(xs);
    if RenderAll(xs) == [] {
      assert RenderAll(xs) + note == note;
    }
  }

  // ----- What the examples are made of -----

  /** Where the input and the output of an example stand. */
  datatype Span = Span(inFrom: nat, inTo: nat, outFrom: nat, outTo: nat)

  /** The example consists of two slices that do not overlap and avoid the markers. */
  predicate Covers(lines: seq<string>, x: Span, e: Example) {
    && x.inFrom <= x.inTo < x.outFrom <= x.outTo <= |lines|
    && e == Example(Join(lines[x.inFrom..x.inTo], "\n"), Join(lines[x.outFrom..x.outTo], "\n"))
    && None(lines[x.inFrom..x.inTo], IsOutput) && None(lines[x.outFrom..x.outTo], IsEnd)
    && !Blank(e.input) && !Blank(e.output)
  }

  /** Each span covers its example. */
  ghost predicate AllCover(lines: seq<string>, spans: seq<Span>, examples: seq<Example>) {
    |spans| == |examples| && forall k :: 0 <= k < |spans| ==> Covers(lines, spans[k], examples[k])
  }

  predicate InOrder(spans: seq<Span>, at: nat) {
    spans == [] || (at <= spans[0].inFrom && InOrder(spans[1..], spans[0].outTo))
  }

  lemma FoundAfter(lines: seq<string>, at: nat, p: string -> bool)
    requires at <= |lines|
    ensures None(lines[at..at + Find(lines[at..], p)], p)
  {
  }

  lemma CopySkipped(lines: seq<string>, at: nat) returns (next: nat)
    requires at <= |lines|
    ensures at <= next <= |lines| && lines[next..] == SkipCopy(lines[at..])
  {
    hide IsCopy;
    next := if at < |lines| && IsCopy(lines[at]) then at + 1 else at;
  }

  lemma KeepSpan(lines: seq<string>, x: Span) returns (spans: seq<Span>)
    requires x.inFrom <= x.inTo < x.outFrom <= x.outTo <= |lines|
    requires None(lines[x.inFrom..x.inTo], IsOutput) && None(lines[x.outFrom..x.outTo], IsEnd)
    ensures var kept := Keep(Join(lines[x.inFrom..x.inTo], "\n"), Join(lines[x.outFrom..x.outTo], "\n"));
            AllCover(lines, spans, kept) && (spans == [] || spans == [x])
  {
    hide Blank, Join, None;
    var kept := Keep(Join(lines[x.inFrom..x.inTo], "\n"), Join(lines[x.outFrom..x.outTo], "\n"));
    spans := if kept == [] then [] else [x];
  }

  lemma {:induction false} LaterInOrder(spans: seq<Span>, at: nat, later: nat)
    requires InOrder(spans, later) && at <= later
    ensures InOrder(spans, at)
  {
  }

  lemma NoSpans(at: nat)
    ensures InOrder([], at)
  {
  }

  /** Parsing from line `at` on: the examples found there, as slices of all lines. */
  lemma {:induction false} SpansFrom(lines: seq<string>, at: nat) returns (spans: seq<Span>)
    requires at <= |lines|
    ensures AllCover(lines, spans, Parse(lines[at..])) && InOrder(spans, at)
    decreases |lines| - at
  {
    hide Find, IsInput, IsOutput, IsEnd, IsCopy, SkipCopy, Keep, Join, Covers, ParseInput, Parse, None, InOrder;
    NoSpans(at);
    var found := at + Find(lines[at..], IsInput);
    NextInput(lines, at, found);
    spans := [];
    if found < |lines| {
      var inFrom := CopySkipped(lines, found + 1);
      var inTo := inFrom + Find(lines[inFrom..], IsOutput);
      if inTo == |lines| {
        NoOutput(lines, found + 1, inFrom);
      } else {
        var outFrom := CopySkipped(lines, inTo + 1);
        var outTo := outFrom + Find(lines[outFrom..], IsEnd);
        OneExample(lines, found + 1, inFrom, inTo, outFrom, outTo);
        FoundAfter(lines, inFrom, IsOutput);
        FoundAfter(lines, outFrom, IsEnd);
        var first := KeepSpan(lines, Span(inFrom, inTo, outFrom, outTo));
        var rest := SpansFrom(lines, outTo);
        spans := first + rest;
        JoinSpans(first, rest, at, inFrom, inTo, outFrom, outTo);
        var kept := Keep(Join(lines[inFrom..inTo], "\n"), Join(lines[outFrom..outTo], "\n"));
        JoinCovers(lines, first, kept, rest, Parse(lines[outTo..]));
      }
    }
  }

  lemma JoinCovers(lines: seq<string>, first: seq<Span>, kept: seq<Example>, rest: seq<Span>, later: seq<Example>)
    requires AllCover(lines, first, kept) && AllCover(lines, rest, later)
    ensures AllCover(lines, first + rest, kept + later)
  {
    hide Covers;
  }

  lemma JoinSpans(first: seq<Span>, rest: seq<Span>, at: nat, inFrom: nat, inTo: nat, outFrom: nat, outTo: nat)
    requires first == [] || first == [Span(inFrom, inTo, outFrom, outTo)]
    requires at <= inFrom && at <= outTo && InOrder(rest, outTo)
    ensures InOrder(first + rest, at)
  {
    if first == [] {
      assert first + rest == rest;
      LaterInOrder(rest, at, outTo);
    } else {
      assert (first + rest)[1..] == rest;
    }
  }

  /**
   On any lines: the examples are joins of slices of the lines that do not overlap, stand in the order of the examples,
   and hold no marker that would have ended them earlier.
   */
  lemma ExamplesAreSlices(lines: seq<string>) returns (spans: seq<Span>)
    ensures AllCover(lines, spans, Parse(lines)) && InOrder(spans, 0)
  {
    hide Covers, Parse, InOrder;
    assert lines[0..] == lines;
    spans := SpansFrom(lines, 0);
  }

  // ----- When the examples survive -----

  predicate SingleLines(lines: seq<string>) {
    forall i :: 0 <= i < |lines| ==> '\n' !in lines[i]
  }

  lemma SameLines(a: seq<string>, b: seq<string>)
    requires SingleLines(a) && SingleLines(b) && Join(a, "\n") == Join(b, "\n") && Join(a, "\n") != ""
    ensures a == b
  {
    assert a != [] && b != [];
    SplitJoin(a, '\n');
    SplitJoin(b, '\n');
  }

  lemma BlankNothing()
    ensures Blank("")
  {
  }

  lemma JoinShorter(lines: seq<string>)
    requires lines != [] && lines[0] != ""
    ensures |Join(lines[1..], "\n")| < |Join(lines, "\n")|
  {
  }

  lemma CopyNotEmpty(line: string)
    requires IsCopy(line)
    ensures line != ""
  {
  }

  lemma StrayCopyChanges(copy: bool, lines: seq<string>)
    requires Join(Content(copy, lines), "\n") == Join(lines, "\n")
    ensures NoStrayCopy(copy, lines)
  {
    hide IsCopy, Join;
    ContentAsIs(copy, lines);
    if !NoStrayCopy(copy, lines) {
      CopyNotEmpty(lines[0]);
      JoinShorter(lines);
    }
  }

  /** The content of the examples has no line breaks inside its lines. */
  predicate Unbroken(xs: seq<Shown>) {
    forall i :: 0 <= i < |xs| ==> SingleLines(xs[i].input) && SingleLines(xs[i].output)
  }

  lemma {:induction false} RenderLines(xs: seq<Shown>)
    requires Unbroken(xs)
    ensures SingleLines(RenderAll(xs))
  {
    hide Join;
    assert '\n' !in INPUT && '\n' !in OUTPUT && '\n' !in COPY;
    if xs != [] {
      RenderLines(xs[1..]);
      assert SingleLines(Render(xs[0]));
    }
  }

  lemma NoneSlice(lines: seq<string>, content: seq<string>, p: string -> bool)
    requires None(lines, p) && (content == lines || (lines != [] && content == lines[1..]))
    ensures None(content, p)
  {
  }

  /** No line of the example would have ended one of its parts, and neither part is blank. */
  predicate AvoidsMarkers(x: Shown) {
    None(x.input, IsOutput) && None(x.output, IsEnd) && !Blank(Meant(x).input) && !Blank(Meant(x).output)
  }

  lemma {:induction false} SurvivorsAvoidMarkers(xs: seq<Shown>)
    requires Unbroken(xs) && Parse(RenderAll(xs)) == AllMeant(xs)
    ensures forall i :: 0 <= i < |xs| ==> AvoidsMarkers(xs[i])
  {
    hide Parse, IsOutput, IsEnd, RenderAll, Join, Blank, None, InOrder;
    var spans := ExamplesAreSlices(RenderAll(xs));
    RenderLines(xs);
    BlankNothing();
    forall i | 0 <= i < |xs| ensures AvoidsMarkers(xs[i]) {
      var s := spans[i];
      assert Covers(RenderAll(xs), s, Meant(xs[i]));
      SameLines(RenderAll(xs)[s.inFrom..s.inTo], xs[i].input);
      SameLines(RenderAll(xs)[s.outFrom..s.outTo], xs[i].output);
    }
  }

  function AllSeen(xs: seq<Shown>): seq<Example> {
    if xs == [] then [] else Seen(xs[0]) + AllSeen(xs[1..])
  }

  lemma {:induction false} ParseSeen(xs: seq<Shown>)
    requires forall i :: 0 <= i < |xs| ==> AvoidsMarkers(xs[i])
    ensures Parse(RenderAll(xs)) == AllSeen(xs)
  {
    hide Parse, IsOutput, IsEnd, IsCopy, Render, Join, Blank, None, Seen, Content;
    if xs == [] {
      NoLines();
    } else {
      var x := xs[0];
      ParseSeen(xs[1..]);
      RenderedEnds(xs[1..]);
      ContentAsIs(x.copyInput, x.input);
      ContentAsIs(x.copyOutput, x.output);
      NoneSlice(x.input, Content(x.copyInput, x.input), IsOutput);
      NoneSlice(x.output, Content(x.copyOutput, x.output), IsEnd);
      ParseFront(x, RenderAll(xs[1..]));
    }
  }

  /** Each example is seen at most once, so a full list leaves no room for a shift. */
  lemma {:induction false} AllSeenEach(xs: seq<Shown>)
    ensures |AllSeen(xs)| <= |xs|
    ensures AllSeen(xs) == AllMeant(xs) ==> forall i :: 0 <= i < |xs| ==> Seen(xs[i]) == [Meant(xs[i])]
  {
    hide Join, Blank, Content, Meant;
    if xs != [] {
      AllSeenEach(xs[1..]);
      assert AllMeant(xs) == [Meant(xs[0])] + AllMeant(xs[1..]);
      assert |Seen(xs[0])| <= 1;
      if AllSeen(xs) == AllMeant(xs) {
        assert AllSeen(xs)[..1] == Seen(xs[0]) && AllSeen(xs)[1..] == AllSeen(xs[1..]);
      }
    }
  }

  lemma SeenMeant(x: Shown)
    requires AvoidsMarkers(x) && Seen(x) == [Meant(x)]
    ensures WellFormed(x)
  {
    hide IsCopy, IsOutput, IsEnd, Join, Blank, Content, NoStrayCopy, None;
    StrayCopyChanges(x.copyInput, x.input);
    StrayCopyChanges(x.copyOutput, x.output);
  }

  /** A list of examples is read back if and only if each avoids the markers and has no blank part. */
  lemma {:induction false} ParseRenderedIff(xs: seq<Shown>)
    requires Unbroken(xs)
    ensures Parse(RenderAll(xs)) == AllMeant(xs) <==> forall i :: 0 <= i < |xs| ==> WellFormed(xs[i])
  {
    hide *;
    if forall i :: 0 <= i < |xs| ==> WellFormed(xs[i]) {
      ParseRendered(xs);
    }
    if Parse(RenderAll(xs)) == AllMeant(xs) {
      SurvivorsAvoidMarkers(xs);
      ParseSeen(xs);
      AllSeenEach(xs);
      forall i | 0 <= i < |xs| ensures WellFormed(xs[i]) {
        SeenMeant(xs[i]);
      }
    }
  }

  // ----- Lines and sections of the Markdown -----

  const MARKER: string := "Markdown Content:"
  const STDOUT: string := "stdout"
  const TIME_LIMIT: string := "time limit per test"
  const MEMORY_LIMIT: string := "memory limit per test"

  /** The text after the first marker, or all of it. */
  function AfterMarker(s: string): string {
    var i := MarkerAt(s);
    if i + |MARKER| <= |s| then s[i + |MARKER|..] else s
  }

  /** Index of the first marker, or the length. */
  function MarkerAt(s: string): (i: nat)
    ensures i <= |s|
    ensures i + |MARKER| <= |s| ==> s[i..i + |MARKER|] == MARKER
  {
    if |s| < |MARKER| then |s| else if s[..|MARKER|] == MARKER then 0 else 1 + MarkerAt(s[1..])
  }

  predicate MarkerHere(s: string, i: nat) {
    i + 17 <= |s| && s[i..i + 17] == "Markdown Content:"
  }

  /** What follows the first marker; a text without one is kept as it is. */
  lemma {:induction false} AfterMarkerMeaning(s: string, first: nat)
    ensures (forall i :: 0 <= i <= |s| ==> !MarkerHere(s, i)) ==> AfterMarker(s) == s
    ensures MarkerHere(s, first) && (forall i :: 0 <= i < first ==> !MarkerHere(s, i)) ==>
            AfterMarker(s) == s[first + 17..]
  {
    FirstMarker(s);
    assert |MARKER| == 17;
    assert MarkerAt(s) + 17 <= |s| ==> MarkerHere(s, MarkerAt(s));
  }

  lemma {:induction false} FirstMarker(s: string)
    ensures forall i :: 0 <= i < MarkerAt(s) ==> !MarkerHere(s, i)
    ensures MarkerAt(s) + 17 > |s| ==> forall i :: 0 <= i <= |s| ==> !MarkerHere(s, i)
  {
    if |s| >= |MARKER| && s[..|MARKER|] != MARKER {
      FirstMarker(s[1..]);
      forall i | 0 < i <= |s| ensures MarkerHere(s, i) <==> MarkerHere(s[1..], i - 1) {
        if i + 17 <= |s| {
          assert s[1..][i - 1..i + 16] == s[i..i + 17];
        }
      }
      assert s[0..17] == s[..17];
    }
  }

  /** compactLines */
  method CompactMarkdown(value: string) returns (result: seq<string>)
    ensures result == Compact(Split(value, '\n'))
  {
    hide TrimSpace, Split;
    result := [];
    var parts := Split(value, '\n');
    for i := 0 to |parts|
      invariant result == Compact(parts[..i])
    {
      assert parts[..i + 1][..i] == parts[..i];
      var line := TrimSpace(parts[i]);
      if line != "" {
        result := result + [line];
      }
    }
    assert parts[..|parts|] == parts;
  }

  predicate IsLine(line: string, word: string) {
    EqualFold(line, word)
  }

  /** indexOf */
  method IndexOf(lines: seq<string>, value: string, start: nat) returns (index: int)
    ensures index == -1 ==> forall k :: start <= k < |lines| ==> !IsLine(lines[k], value)
    ensures index != -1 ==> start <= index < |lines| && IsLine(lines[index], value)
    ensures index != -1 ==> forall k :: start <= k < index ==> !IsLine(lines[k], value)
  {
    hide EqualFold;
    index := start;
    while index < |lines|
      invariant start <= index
      invariant forall k :: start <= k < index && k < |lines| ==> !IsLine(lines[k], value)
      decreases |lines| - index
    {
      if IsLine(lines[index], value) {
        return;
      }
      index := index + 1;
    }
    index := -1;
  }

  /** indexAfter */
  method IndexAfter(lines: seq<string>, value: string) returns (index: int)
    ensures index == -1 || 0 < index < |lines|
    ensures index != -1 ==>
            IsLine(lines[index - 1], value) && forall k :: 0 <= k < index - 1 ==> !IsLine(lines[k], value)
    ensures index == -1 ==> forall k :: 0 <= k < |lines| - 1 ==> !IsLine(lines[k], value)
  {
    hide EqualFold, IsLine;
    index := IndexOf(lines, value, 0);
    index := if index < 0 || index + 1 >= |lines| then -1 else index + 1;
  }

  /** The content starts after the first "stdout" that is not the last line, or else after the title. */
  predicate StartsAt(lines: seq<string>, start: nat) {
    1 <= start <= |lines| &&
    ((start == 1 && forall k :: 0 <= k < |lines| - 1 ==> !IsLine(lines[k], STDOUT)) ||
     (start < |lines| && IsLine(lines[start - 1], STDOUT)
      && forall k :: 0 <= k < start - 1 ==> !IsLine(lines[k], STDOUT)))
  }

  /** Where the sections of a problem stand: statement from `start` to `end`, examples from `examples` on. */
  predicate Sections(lines: seq<string>, start: nat, end: nat, examples: nat) {
    && StartsAt(lines, start) && start <= end <= examples <= |lines|
    && (forall k :: start <= k < end ==> !IsLine(lines[k], EXAMPLES))
    && (examples == end == |lines| || (examples == end + 1 && IsLine(lines[end], EXAMPLES)))
  }

  /** The line after the first line that equals the heading, with that heading in front; nothing if there is none. */
  function LimitOf(lines: seq<string>, heading: string): seq<string> {
    var k := Find(lines, (line: string) => IsLine(line, heading));
    if k + 1 < |lines| then [heading + ": " + lines[k + 1]] else []
  }

  method Limit(lines: seq<string>, heading: string) returns (r: seq<string>)
    ensures r == LimitOf(lines, heading)
  {
    hide EqualFold, IsLine, Find;
    var index := IndexOf(lines, heading, 0);
    r := if index >= 0 && index + 1 < |lines| then [heading + ": " + lines[index + 1]] else [];
  }

  lemma NoLimits()
    ensures LimitOf([], TIME_LIMIT) == [] && LimitOf([], MEMORY_LIMIT) == []
  {
  }

  /** The line after the heading, whatever the letter case of the heading in the page; nothing without such a line. */
  lemma LimitMeaning(before: seq<string>, line: string, after: seq<string>, heading: string)
    requires forall k :: 0 <= k < |before| ==> !IsLine(before[k], heading)
    ensures LimitOf(before, heading) == []
    ensures IsLine(line, heading) ==>
            LimitOf(before + [line] + after, heading) == if after == [] then [] else [heading + ": " + after[0]]
  {
    hide IsLine;
    var p := (x: string) => IsLine(x, heading);
    FindNone(before, p);
    if IsLine(line, heading) {
      FindAt(before, [line] + after, p);
      assert before + [line] + after == before + ([line] + after);
    }
  }

  lemma FindNone(lines: seq<string>, p: string -> bool)
    requires forall k :: 0 <= k < |lines| ==> !p(lines[k])
    ensures Find(lines, p) == |lines|
  {
  }

  /**
   parseReaderMarkdown. All slices are in range; the statement ends where the heading of the examples stands, and the
   lines of the examples come after it, so no line belongs to both.
   */
  method ParseReaderMarkdown(markdown: string)
    returns (title: string, statement: string, examples: seq<Example>, constraints: seq<string>,
             ghost start: nat, ghost end: nat, ghost after: nat)
    ensures var lines := Compact(Split(AfterMarker(markdown), '\n'));
            if lines == [] then title == "" && statement == "" && examples == [] && constraints == []
            else
              && Sections(lines, start, end, after)
              && title == lines[0] && statement == Join(lines[start..end], "\n\n") && examples == Parse(lines[after..])
    ensures var lines := Compact(Split(AfterMarker(markdown), '\n'));
            constraints == LimitOf(lines, TIME_LIMIT) + LimitOf(lines, MEMORY_LIMIT)
  {
    hide LimitOf, EqualFold, Compact, Split, MarkerAt, Join, Parse;
    title, statement, examples, constraints, start, end, after := "", "", [], [], 0, 0, 0;
    var lines := CompactMarkdown(AfterMarker(markdown));
    if |lines| == 0 {
      NoLimits();
      return;
    }
    title := lines[0];
    var contentStart := IndexAfter(lines, STDOUT);
    if contentStart < 0 {
      contentStart := 1;
    }
    var examplesStart := IndexOf(lines, EXAMPLES, contentStart);
    var statementEnd := |lines|;
    if examplesStart >= 0 {
      statementEnd := examplesStart;
    }
    var time := Limit(lines, TIME_LIMIT);
    var memory := Limit(lines, MEMORY_LIMIT);
    constraints := time + memory;
    if examplesStart >= 0 {
      examples := ParseReaderExamples(lines[examplesStart + 1..]);
    } else {
      assert lines[|lines|..] == [];
      NoLines();
    }
    statement := Join(lines[contentStart..statementEnd], "\n\n");
    start, end := contentStart, statementEnd;
    after := if examplesStart >= 0 then examplesStart + 1 else |lines|;
  }

  /** There is only one way to divide the lines. */
  lemma SectionsUnique(lines: seq<string>, s1: nat, e1: nat, a1: nat, s2: nat, e2: nat, a2: nat)
    requires Sections(lines, s1, e1, a1) && Sections(lines, s2, e2, a2)
    ensures s1 == s2 && e1 == e2 && a1 == a2
  {
    hide IsLine;
    StartUnique(lines, s1, s2);
  }

  lemma StartUnique(lines: seq<string>, s1: nat, s2: nat)
    requires StartsAt(lines, s1) && StartsAt(lines, s2)
    ensures s1 == s2
  {
    hide IsLine;
    assert IsLine(lines[s1 - 1], STDOUT) || s1 == 1;
    assert IsLine(lines[s2 - 1], STDOUT) || s2 == 1;
  }

  /** A page as the reader gives it. */
  function Page(head: seq<string>, statement: seq<string>, xs: seq<Shown>): seq<string> {
    head + [STDOUT] + statement + [EXAMPLES] + RenderAll(xs)
  }

  lemma HeadingsFold()
    ensures IsLine(STDOUT, STDOUT) && IsLine(EXAMPLES, EXAMPLES)
  {
    FoldsToItself(STDOUT);
    FoldsToItself(EXAMPLES);
  }

  lemma PageSlices(head: seq<string>, statement: seq<string>, rest: seq<string>)
    ensures var lines, s := head + [STDOUT] + statement + [EXAMPLES] + rest, |head| + 1;
            && s + |statement| + 1 <= |lines| && lines[s..s + |statement|] == statement
            && lines[s + |statement| + 1..] == rest
            && lines[|head|] == STDOUT && lines[s + |statement|] == EXAMPLES && lines[..|head|] == head
  {
  }

  /** A page whose head has no "stdout" and whose statement has no "Examples" is divided as it was put together. */
  lemma PageSections(head: seq<string>, statement: seq<string>, rest: seq<string>)
    requires head != [] && (forall k :: 0 <= k < |head| ==> !IsLine(head[k], STDOUT))
    requires forall k :: 0 <= k < |statement| ==> !IsLine(statement[k], EXAMPLES)
    ensures Sections(head + [STDOUT] + statement + [EXAMPLES] + rest, |head| + 1, |head| + 1 + |statement|,
                     |head| + 2 + |statement|)
  {
    hide IsLine;
    HeadingsFold();
    PageSlices(head, statement, rest);
    var lines, s := head + [STDOUT] + statement + [EXAMPLES] + rest, |head| + 1;
    forall k | 0 <= k < |head| ensures !IsLine(lines[k], STDOUT) {
      assert lines[k] == head[k];
    }
    forall k | s <= k < s + |statement| ensures !IsLine(lines[k], EXAMPLES) {
      assert lines[k] == statement[k - s];
    }
  }

  /** Such a page gives back its statement and, when they are well formed, its examples. */
  lemma PageRoundTrip(head: seq<string>, statement: seq<string>, xs: seq<Shown>, start: nat, end: nat, after: nat)
    requires head != [] && (forall k :: 0 <= k < |head| ==> !IsLine(head[k], STDOUT))
    requires forall k :: 0 <= k < |statement| ==> !IsLine(statement[k], EXAMPLES)
    requires forall i :: 0 <= i < |xs| ==> WellFormed(xs[i])
    requires Sections(Page(head, statement, xs), start, end, after)
    ensures Page(head, statement, xs)[start..end] == statement
    ensures Parse(Page(head, statement, xs)[after..]) == AllMeant(xs)
  {
    hide IsLine, Sections, WellFormed, Parse, RenderAll;
    PageSections(head, statement, RenderAll(xs));
    SectionsUnique(Page(head, statement, xs), start, end, after,
                   |head| + 1, |head| + 1 + |statement|, |head| + 2 + |statement|);
    PageSlices(head, statement, RenderAll(xs));
    ParseRendered(xs);
  }

  /** A page without "stdout" starts after its title, and one without "Examples" is statement to its end. */
  lemma PlainPage(title: string, statement: seq<string>, tail: seq<string>, start: nat, end: nat, after: nat)
    requires forall k :: 0 <= k < |statement| ==> !IsLine(statement[k], EXAMPLES)
    requires tail == [] || IsLine(tail[0], EXAMPLES)
    requires var lines := [title] + statement + tail;
             && (forall k :: 0 <= k < |lines| ==> !IsLine(lines[k], STDOUT)) && Sections(lines, start, end, after)
    ensures var lines := [title] + statement + tail;
            lines[start..end] == statement && lines[after..] == if tail == [] then [] else tail[1..]
  {
    hide IsLine;
    var lines := [title] + statement + tail;
    assert start == 1;
    assert forall k :: 0 <= k < |statement| ==> lines[k + 1] == statement[k];
    assert tail != [] ==> lines[1 + |statement|] == tail[0];
    assert end == 1 + |statement|;
  }
}
