/** strings.ReplaceAll and substrings, for replacement texts that begin and end with an asterisk. */
module Replacing {
  import opened Text

  /** strings.Contains */
  predicate Has(s: string, w: string) {
    w <= s || (s != "" && Has(s[1..], w))
  }

  /** strings.ReplaceAll for a non-empty word. */
  function ReplaceAll(s: string, word: string, text: string): string
    requires word != ""
  {
    if word <= s then text + ReplaceAll(s[|word|..], word, text)
    else if s == "" then ""
    else [s[0]] + ReplaceAll(s[1..], word, text)
  }

  /** A replacement text that begins and ends with an asterisk and has no line break. */
  predicate Starred(text: string) {
    text != "" && text[0] == '*' && text[|text| - 1] == '*' && '\n' !in text
  }

  lemma {:induction false} NothingToReplace(s: string, word: string, text: string)
    requires word != "" && !Has(s, word)
    ensures ReplaceAll(s, word, text) == s
  {
    if s != "" {
      NothingToReplace(s[1..], word, text);
      assert s == [s[0]] + s[1..];
    }
  }

  lemma {:induction false} HasLater(s: string, n: nat, w: string)
    requires n <= |s| && Has(s[n..], w)
    ensures Has(s, w)
  {
    if n > 0 {
      assert s[n..] == s[1..][n - 1..];
      HasLater(s[1..], n - 1, w);
    } else {
      assert s[0..] == s;
    }
  }

  /** A part of a substring is a substring. */
  lemma {:induction false} HasPart(s: string, a: string, w: string, b: string)
    requires Has(s, a + w + b)
    ensures Has(s, w)
  {
    var whole := a + w + b;
    if whole <= s {
      assert s[|a|..] == whole[|a|..] + s[|whole|..];
      assert whole[|a|..] == w + b;
      assert w <= s[|a|..];
      HasLater(s, |a|, w);
    } else {
      HasPart(s[1..], a, w, b);
    }
  }

  /** A word without asterisks that a result starts with was copied from the start of the input. */
  lemma {:induction false} Copied(s: string, word: string, text: string, w: string)
    requires word != "" && Starred(text) && '*' !in w && w <= ReplaceAll(s, word, text)
    ensures w <= s && ReplaceAll(s, word, text)[|w|..] == ReplaceAll(s[|w|..], word, text)
  {
    var r := ReplaceAll(s, word, text);
    if w != "" {
      assert w[0] == r[0];
      assert r[1..] == ReplaceAll(s[1..], word, text);
      assert w[1..] <= r[1..];
      Copied(s[1..], word, text, w[1..]);
      assert w == [w[0]] + w[1..] && s == [s[0]] + s[1..];
      assert r[|w|..] == r[1..][|w| - 1..] && s[|w|..] == s[1..][|w| - 1..];
    } else {
      assert r[0..] == r && s[0..] == s;
    }
  }

  /** The word does not begin inside p. */
  ghost predicate NoneBegins(p: string, b: string, word: string) {
    forall i :: 0 <= i < |p| ==> !(word <= (p + b)[i..])
  }

  /** What lies before the first occurrence is copied. */
  lemma {:induction false} ReplaceAfter(p: string, b: string, word: string, text: string)
    requires word != "" && NoneBegins(p, b, word)
    ensures ReplaceAll(p + b, word, text) == p + ReplaceAll(b, word, text)
  {
    if p == "" {
      assert p + b == b;
    } else {
      assert (p + b)[0..] == p + b;
      assert (p + b)[1..] == p[1..] + b;
      forall i | 0 <= i < |p| - 1 ensures !(word <= (p[1..] + b)[i..]) {
        assert (p[1..] + b)[i..] == (p + b)[i + 1..];
      }
      ReplaceAfter(p[1..], b, word, text);
    }
  }

  /** An occurrence of the word itself is replaced. */
  lemma ReplaceHere(word: string, b: string, text: string)
    requires word != ""
    ensures ReplaceAll(word + b, word, text) == text + ReplaceAll(b, word, text)
  {
    assert (word + b)[|word|..] == b;
  }

  lemma PartlyCopied(q: string, b: string, word: string, text: string, w: string)
    requires word != "" && Starred(text) && '*' !in w && w <= q + ReplaceAll(b, word, text)
    ensures w <= q + b
  {
    if |w| > |q| {
      var tail := w[|q|..];
      assert w == q + tail;
      assert tail <= ReplaceAll(b, word, text);
      Copied(b, word, text, tail);
    }
  }

  /** Replacing in what follows p makes no word without asterisks begin inside p. */
  lemma NoneBeginsStill(p: string, b: string, word: string, text: string, w: string)
    requires word != "" && Starred(text) && '*' !in w && NoneBegins(p, b, w)
    ensures NoneBegins(p, ReplaceAll(b, word, text), w)
  {
    var r := ReplaceAll(b, word, text);
    forall i | 0 <= i < |p| ensures !(w <= (p + r)[i..]) {
      assert (p + r)[i..] == p[i..] + r;
      assert (p + b)[i..] == p[i..] + b;
      if w <= p[i..] + r {
        PartlyCopied(p[i..], b, word, text, w);
      }
    }
  }

  lemma StartBeforeStar(a: string, b: string, w: string)
    requires a != "" && a[|a| - 1] == '*' && '*' !in w && w <= a + b
    ensures w <= a
  {
    var s := a + b;
    assert s[|a| - 1] == '*';
    forall k | 0 <= k < |w| ensures s[k] != '*' {
      assert w[k] == s[k] && w[k] in w;
    }
  }

  /** An occurrence of a word without asterisks cannot cross an asterisk. */
  lemma {:induction false} HasAroundStar(a: string, b: string, w: string)
    requires a != "" && a[|a| - 1] == '*' && '*' !in w && w != "" && Has(a + b, w)
    ensures Has(a, w) || Has(b, w)
  {
    var s := a + b;
    if w <= s {
      StartBeforeStar(a, b, w);
    } else if |a| == 1 {
      assert s[1..] == b;
    } else {
      assert s[1..] == a[1..] + b;
      HasAroundStar(a[1..], b, w);
    }
  }

  /** Replacing creates no occurrence of a word without asterisks, and leaves none of the replaced word. */
  lemma {:induction false} NothingNew(s: string, word: string, text: string, w: string)
    requires word != "" && Starred(text) && w != "" && '*' !in w && !Has(text, w)
    requires w == word || !Has(s, w)
    ensures !Has(ReplaceAll(s, word, text), w)
    decreases |s|
  {
    var r := ReplaceAll(s, word, text);
    if word <= s {
      var rest := s[|word|..];
      if w != word && Has(rest, w) {
        HasLater(s, |word|, w);
      }
      NothingNew(rest, word, text, w);
      if Has(r, w) {
        HasAroundStar(text, ReplaceAll(rest, word, text), w);
      }
    } else if s != "" {
      NothingNew(s[1..], word, text, w);
      assert r[1..] == ReplaceAll(s[1..], word, text);
      if w <= r {
        Copied(s, word, text, w);
      }
    }
  }

  predicate EndsWith(s: string, w: string) {
    |w| <= |s| && s[|s| - |w|..] == w
  }

  lemma EndAfterStar(a: string, b: string, w: string)
    requires a != "" && a[|a| - 1] == '*' && '*' !in w && EndsWith(a + b, w)
    ensures EndsWith(b, w)
  {
    var s := a + b;
    assert s[|a| - 1] == '*';
    forall k | |s| - |w| <= k < |s| ensures s[k] != '*' {
      assert w[k - (|s| - |w|)] == s[k] && s[k] in w;
    }
    assert |w| <= |b|;
  }

  lemma EndLater(s: string, n: nat, w: string)
    requires n <= |s| && EndsWith(s[n..], w)
    ensures EndsWith(s, w)
  {
  }

  lemma WholeCopied(s: string, word: string, text: string, w: string)
    requires word != "" && Starred(text) && '*' !in w && w == ReplaceAll(s, word, text)
    ensures w == s
  {
    var r := ReplaceAll(s, word, text);
    assert w <= r;
    Copied(s, word, text, w);
    assert r[|w|..] == "";
    NothingLeft(s[|w|..], word, text);
    assert s == w + s[|w|..];
  }

  lemma EndOrWhole(c: char, rest: string, w: string)
    requires w != "" && EndsWith([c] + rest, w)
    ensures EndsWith(rest, w) || w == [c] + rest
  {
  }

  /** A word without asterisks that a result ends with was copied from the end of the input. */
  lemma {:induction false} CopiedEnd(s: string, word: string, text: string, w: string)
    requires word != "" && Starred(text) && '*' !in w && w != "" && EndsWith(ReplaceAll(s, word, text), w)
    ensures EndsWith(s, w)
    decreases |s|
  {
    if word <= s {
      EndAfterStar(text, ReplaceAll(s[|word|..], word, text), w);
      CopiedEnd(s[|word|..], word, text, w);
      EndLater(s, |word|, w);
    } else if s != "" {
      EndOrWhole(s[0], ReplaceAll(s[1..], word, text), w);
      if EndsWith(ReplaceAll(s[1..], word, text), w) {
        CopiedEnd(s[1..], word, text, w);
        EndLater(s, 1, w);
      } else {
        WholeCopied(s, word, text, w);
      }
    }
  }

  lemma NothingLeft(s: string, word: string, text: string)
    requires word != "" && text != "" && ReplaceAll(s, word, text) == ""
    ensures s == ""
  {
  }
}
