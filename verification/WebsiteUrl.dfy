/**
 Canonical website URLs: what NormalizeWebsiteURL accepts, that its result is a fixed point which the matching collector
 takes, and which variants of a URL it identifies. The URL grammar is that of section 3 of RFC 3986, on byte strings, as
 far as an https URL with a registered host name needs it.
 */
module WebsiteUrl {
  import opened Options
  import opened Sequences
  import opened Text

  /** An https URL without user and port: decoded path, host as written. */
  datatype HttpsUrl = HttpsUrl(host: string, path: string)

  datatype Target = Rejected | Accepted(source: string, url: string)

  const HTTPS: string := "https"
  const CODEFORCES: string := "codeforces.com"
  const LEETCODE: string := "leetcode.com"
  const CODERUN: string := "coderun.yandex.ru"

  // ----- Letters and digits -----

  predicate IsLower(c: char) {
    'a' <= c <= 'z'
  }

  predicate IsDigit(c: char) {
    '0' <= c <= '9'
  }

  function UpperChar(c: char): char {
    if IsLower(c) then (c as int - 32) as char else c
  }

  /**
   strings.ToLower on the strings compared here: no other character has an ASCII lower case that occurs in the hosts.
   */
  function ToLower(s: string): (r: string)
    ensures |r| == |s|
    ensures forall i :: 0 <= i < |s| ==> r[i] == LowerChar(s[i])
  {
    seq(|s|, i requires 0 <= i < |s| => LowerChar(s[i]))
  }

  /** strings.ToUpper on slugs. */
  function ToUpper(s: string): (r: string)
    ensures |r| == |s|
    ensures forall i :: 0 <= i < |s| ==> r[i] == UpperChar(s[i])
  {
    seq(|s|, i requires 0 <= i < |s| => UpperChar(s[i]))
  }

  predicate SlugChar(c: char) {
    IsLower(c) || IsUpper(c) || IsDigit(c) || c == '-' || c == '_'
  }

  predicate IsSlug(s: string) {
    s != "" && forall i :: 0 <= i < |s| ==> SlugChar(s[i])
  }

  predicate IsDigits(s: string) {
    s != "" && forall i :: 0 <= i < |s| ==> IsDigit(s[i])
  }

  predicate IsProblemIndex(s: string) {
    |s| <= 8 && IsSlug(s)
  }

  /** isSlug as the code scans it. */
  method ScanSlug(value: string) returns (ok: bool)
    ensures ok == IsSlug(value)
  {
    if value == "" {
      return false;
    }
    for i := 0 to |value|
      invariant forall k :: 0 <= k < i ==> SlugChar(value[k])
    {
      if !IsLower(value[i]) && !IsUpper(value[i]) && !IsDigit(value[i]) && value[i] != '-' && value[i] != '_' {
        return false;
      }
    }
    ok := true;
  }

  /** isDigits as the code scans it. */
  method ScanDigits(value: string) returns (ok: bool)
    ensures ok == IsDigits(value)
  {
    if value == "" {
      return false;
    }
    for i := 0 to |value|
      invariant forall k :: 0 <= k < i ==> IsDigit(value[k])
    {
      if value[i] < '0' || value[i] > '9' {
        return false;
      }
    }
    ok := true;
  }

  // ----- URL parsing -----

  /** The longest prefix whose characters satisfy p. */
  function Span(s: string, p: char -> bool): (r: string)
    ensures r <= s
  {
    if s == "" || !p(s[0]) then "" else [s[0]] + Span(s[1..], p)
  }

  lemma {:induction false} SpanAppend(a: string, b: string, p: char -> bool)
    requires forall i :: 0 <= i < |a| ==> p(a[i])
    requires b == "" || !p(b[0])
    ensures Span(a + b, p) == a
  {
    if a == "" {
      assert a + b == b;
    } else {
      SpanAppend(a[1..], b, p);
      assert (a + b)[1..] == a[1..] + b;
    }
  }

  /** The part of s before the first c. */
  function Until(s: string, c: char): (r: string)
    ensures r <= s
  {
    Span(s, x => x != c)
  }

  lemma UntilFirst(a: string, b: string, c: char)
    requires c !in a && (b == "" || b[0] == c)
    ensures Until(a + b, c) == a && (a + b)[|a|..] == b
  {
    SpanAppend(a, b, x => x != c);
  }

  predicate SchemeChar(c: char) {
    IsLower(c) || IsUpper(c) || IsDigit(c) || c == '+' || c == '-' || c == '.'
  }

  predicate HasControl(s: string) {
    exists i :: 0 <= i < |s| && (s[i] < ' ' || s[i] == '\U{7F}')
  }

  function Hex(c: char): Option<nat> {
    if IsDigit(c) then Some(c as int - '0' as int)
    else if 'a' <= c <= 'f' then Some(c as int - 'a' as int + 10)
    else if 'A' <= c <= 'F' then Some(c as int - 'A' as int + 10)
    else None
  }

  /** Percent-decoding. */
  function Unescape(s: string): Option<string> {
    if s == "" then Some("")
    else if s[0] != '%' then
      var rest := Unescape(s[1..]);
      if rest.None? then None else Some([s[0]] + rest.value)
    else if |s| < 3 || Hex(s[1]).None? || Hex(s[2]).None? then None
    else
      var rest := Unescape(s[3..]);
      if rest.None? then None else Some([Byte(Hex(s[1]).value, Hex(s[2]).value)] + rest.value)
  }

  function Byte(high: nat, low: nat): char {
    ((16 * high + low) % 256) as char
  }

  lemma {:induction false} UnescapePlain(s: string)
    requires '%' !in s
    ensures Unescape(s) == Some(s)
  {
    if s != "" {
      UnescapePlain(s[1..]);
      assert s == [s[0]] + s[1..];
    }
  }

  function HexDigit(k: nat): char
    requires k < 16
  {
    if k < 10 then ('0' as int + k) as char else ('A' as int + k - 10) as char
  }

  /** Every byte percent-encoded, with capital or small digits. */
  function Escape(s: string, small: bool): string
    requires forall i :: 0 <= i < |s| ==> s[i] < 256 as char
  {
    if s == "" then ""
    else
      var high, low := HexDigit(s[0] as int / 16), HexDigit(s[0] as int % 16);
      (if small then ['%', LowerChar(high), LowerChar(low)] else ['%', high, low]) + Escape(s[1..], small)
  }

  lemma HexDigits(k: nat)
    requires k < 16
    ensures Hex(HexDigit(k)) == Some(k) && Hex(LowerChar(HexDigit(k))) == Some(k)
  {
  }

  /** Decoding undoes encoding. */
  lemma {:induction false} UnescapeEscape(s: string, small: bool)
    requires forall i :: 0 <= i < |s| ==> s[i] < 256 as char
    ensures Unescape(Escape(s, small)) == Some(s)
  {
    hide Hex, HexDigit, LowerChar;
    if s != "" {
      var rest, c := s[1..], s[0] as int;
      UnescapeEscape(rest, small);
      HexDigits(c / 16);
      HexDigits(c % 16);
      assert Escape(s, small)[3..] == Escape(rest, small);
      assert Byte(c / 16, c % 16) == s[0];
      assert s == [s[0]] + rest;
    }
  }

  /** A percent sign without two hexadecimal digits after it cannot be decoded. */
  lemma {:induction false} MalformedEscape(a: string, b: string)
    requires '%' !in a
    requires |b| < 2 || b[0] !in "0123456789abcdefABCDEF" || b[1] !in "0123456789abcdefABCDEF"
    ensures Unescape(a + "%" + b).None?
  {
    if a == "" {
      assert a + "%" + b == "%" + b;
      if |b| >= 2 {
        DigitsOnly(b[0]);
        DigitsOnly(b[1]);
      }
    } else {
      MalformedEscape(a[1..], b);
      assert (a + "%" + b)[1..] == a[1..] + "%" + b;
    }
  }

  lemma DigitsOnly(c: char)
    ensures Hex(c).Some? ==> c in "0123456789abcdefABCDEF"
  {
    var digits := "0123456789abcdefABCDEF";
    if '0' <= c <= '9' {
      assert digits[c as int - '0' as int] == c;
    } else if 'a' <= c <= 'f' {
      assert digits[c as int - 'a' as int + 10] == c;
    } else if 'A' <= c <= 'F' {
      assert digits[c as int - 'A' as int + 16] == c;
    }
  }

  /** Host of an authority without user information and with an absent or empty port. */
  function HostOf(authority: string): Option<string> {
    if '@' in authority || (authority != "" && authority[0] == '[') then None
    else if authority != "" && authority[|authority| - 1] == ':' then Some(authority[..|authority| - 1])
    else if ':' in authority then None
    else Some(authority)
  }

  /** Authority and path of what follows the scheme. */
  function ParseHierarchy(rest: string): Option<HttpsUrl> {
    if !("//" <= rest) then None
    else
      var authority := Until(rest[2..], '/');
      var host, path := HostOf(authority), Unescape(rest[2..][|authority|..]);
      if host.None? || path.None? then None else Some(HttpsUrl(host.value, path.value))
  }

  /** url.Parse, for URLs that then pass the check of scheme, user and port. */
  function ParseHttps(s: string): Option<HttpsUrl> {
    var u := Until(s, '#');
    var fragment := s[|u|..];
    var scheme := Span(u, SchemeChar);
    if HasControl(u) || (fragment != "" && Unescape(fragment[1..]).None?) then None
    else if |scheme| == |u| || u[|scheme|] != ':' || ToLower(scheme) != HTTPS then None
    else ParseHierarchy(Until(u[|scheme| + 1..], '?'))
  }

  // ----- Path segments -----

  function TrimLeft(s: string, c: char): (r: string)
    ensures r == "" || r[0] != c
  {
    if s != "" && s[0] == c then TrimLeft(s[1..], c) else s
  }

  function TrimRight(s: string, c: char): string {
    if s != "" && s[|s| - 1] == c then TrimRight(s[..|s| - 1], c) else s
  }

  /** strings.Trim(path, "/") */
  function TrimSlashes(path: string): string {
    TrimRight(TrimLeft(path, '/'), '/')
  }

  function NonEmpty(parts: seq<string>): seq<string> {
    Filter(parts, (p: string) => p != "")
  }

  /** splitURLPath */
  function Segments(path: string): seq<string> {
    NonEmpty(Split(TrimSlashes(path), '/'))
  }

  /** splitURLPath as the code builds it. */
  method SplitUrlPath(path: string) returns (result: seq<string>)
    ensures result == Segments(path)
  {
    result := [];
    var parts := Split(TrimSlashes(path), '/');
    for i := 0 to |parts|
      invariant result == NonEmpty(parts[..i])
    {
      assert parts[..i + 1][..i] == parts[..i];
      if parts[i] != "" {
        result := result + [parts[i]];
      }
    }
    assert parts[..|parts|] == parts;
  }

  // ----- Normalisation -----

  function StripWww(host: string): string {
    if "www." <= host then host[4..] else host
  }

  /** One leading "www." is dropped, and a host without it stays as it is. */
  lemma WwwMeaning(host: string)
    ensures StripWww("www." + host) == host
    ensures |host| < 4 || host[..4] != "www." ==> StripWww(host) == host
  {
    assert ("www." + host)[4..] == host;
  }

  /** A URL without its fragment: scheme ":" "//" host port path query. */
  function Written(scheme: string, host: string, port: string, path: string, query: string): string {
    scheme + ":" + ("//" + host + port + path) + query
  }

  /** The URL of a host and path segments. */
  function Url(host: string, parts: seq<string>): string {
    Written(HTTPS, host, "", Path(parts), "")
  }

  function Path(parts: seq<string>): string {
    "/" + Join(parts, "/")
  }

  function CodeforcesParts(contest: string, index: string): seq<string> {
    ["problemset", "problem", contest, ToUpper(index)]
  }

  function LeetcodeParts(slug: string): seq<string> {
    ["problems", ToLower(slug)]
  }

  function CoderunParts(slug: string): seq<string> {
    ["problem", ToLower(slug)]
  }

  /** The source and canonical segments of a page. */
  function Resolve(host: string, parts: seq<string>): Option<(string, seq<string>)> {
    if host == CODEFORCES then
      if |parts| == 4 && parts[0] == "problemset" && parts[1] == "problem" && IsDigits(parts[2]) &&
          IsProblemIndex(parts[3])
      then Some(("codeforces", CodeforcesParts(parts[2], parts[3])))
      else if |parts| == 4 && parts[0] == "contest" && IsDigits(parts[1]) && parts[2] == "problem" &&
          IsProblemIndex(parts[3])
      then Some(("codeforces", CodeforcesParts(parts[1], parts[3])))
      else None
    else if host == LEETCODE then
      if 2 <= |parts| <= 3 && parts[0] == "problems" && IsSlug(parts[1]) && (|parts| == 2 || parts[2] == "description")
      then Some(("leetcode", LeetcodeParts(parts[1])))
      else None
    else if host == CODERUN then
      if |parts| == 2 && parts[0] == "problem" && IsSlug(parts[1])
      then Some(("coderun", CoderunParts(parts[1])))
      else None
    else None
  }

  function Canonical(host: string, parts: seq<string>): Target {
    var page := Resolve(host, parts);
    if page.None? then Rejected else Accepted(page.value.0, Url(host, page.value.1))
  }

  /** NormalizeWebsiteURL */
  function Normalize(raw: string): Target {
    var parsed := ParseHttps(TrimSpace(raw));
    if parsed.None? then Rejected
    else Canonical(StripWww(ToLower(parsed.value.host)), Segments(parsed.value.path))
  }

  // ----- Parsing what was written -----

  predicate HostChar(c: char) {
    IsLower(c) || IsUpper(c) || IsDigit(c) || c == '.' || c == '-'
  }

  predicate HostName(host: string) {
    forall i :: 0 <= i < |host| ==> HostChar(host[i])
  }

  /** An absolute path without query, fragment or control characters. */
  predicate RawPath(path: string) {
    path != "" && path[0] == '/' && '?' !in path && '#' !in path && !HasControl(path)
  }

  /** Nothing, or a query with its question mark. */
  predicate RawQuery(query: string) {
    query == "" || (query[0] == '?' && '#' !in query && !HasControl(query))
  }

  /** Nothing, or a fragment with its number sign that can be decoded. */
  predicate RawFragment(fragment: string) {
    fragment == "" || (fragment[0] == '#' && Unescape(fragment[1..]).Some?)
  }

  lemma SchemeLetters(scheme: string)
    requires ToLower(scheme) == HTTPS
    ensures |scheme| == 5
    ensures forall i :: 0 <= i < |scheme| ==> SchemeChar(scheme[i]) && (IsLower(scheme[i]) || IsUpper(scheme[i]))
  {
    forall i | 0 <= i < |scheme| ensures IsLower(scheme[i]) || IsUpper(scheme[i]) {
      assert LowerChar(scheme[i]) == HTTPS[i];
      assert IsLower(HTTPS[i]);
    }
  }

  lemma HostOfAuthority(host: string, port: string)
    requires HostName(host) && (port == "" || port == ":")
    ensures HostOf(host + port) == Some(host) && '/' !in host + port
  {
    var authority := host + port;
    if port == "" {
      assert authority == host;
    } else {
      assert authority[..|authority| - 1] == host;
    }
  }

  lemma HostAndPath(host: string, port: string, path: string)
    requires HostName(host) && (port == "" || port == ":") && RawPath(path) && Unescape(path).Some?
    ensures ParseHierarchy("//" + host + port + path) == Some(HttpsUrl(host, Unescape(path).value))
  {
    HostOfAuthority(host, port);
    UntilFirst(host + port, path, '/');
    assert ("//" + host + port + path)[2..] == (host + port) + path;
  }

  lemma NoControlInConcat(a: string, b: string)
    requires !HasControl(a) && !HasControl(b)
    ensures !HasControl(a + b)
  {
  }

  lemma WrittenPlain(scheme: string, host: string, port: string, path: string, query: string)
    requires ToLower(scheme) == HTTPS && HostName(host) && (port == "" || port == ":") && RawPath(path) &&
             RawQuery(query)
    ensures !HasControl(Written(scheme, host, port, path, query)) && '#' !in Written(scheme, host, port, path, query)
    ensures '?' !in "//" + host + port + path
  {
    SchemeLetters(scheme);
    NoControlInConcat(scheme, ":");
    NoControlInConcat("//", host);
    NoControlInConcat("//" + host, port);
    NoControlInConcat("//" + host + port, path);
    NoControlInConcat(scheme + ":", "//" + host + port + path);
    NoControlInConcat(scheme + ":" + ("//" + host + port + path), query);
  }

  lemma SchemeOf(scheme: string, rest: string)
    requires ToLower(scheme) == HTTPS
    ensures Span(scheme + ":" + rest, SchemeChar) == scheme
    ensures (scheme + ":" + rest)[|scheme|] == ':' && (scheme + ":" + rest)[|scheme| + 1..] == rest
  {
    SchemeLetters(scheme);
    assert scheme + ":" + rest == scheme + (":" + rest);
    SpanAppend(scheme, ":" + rest, SchemeChar);
  }

  /** A URL written with any case of scheme and host, an empty port, a query and a fragment. */
  lemma ParseWritten(scheme: string, host: string, port: string, path: string, query: string, fragment: string)
    requires ToLower(scheme) == HTTPS && HostName(host) && (port == "" || port == ":")
    requires RawPath(path) && RawQuery(query) && RawFragment(fragment) && Unescape(path).Some?
    ensures ParseHttps(Written(scheme, host, port, path, query) + fragment)
            == Some(HttpsUrl(host, Unescape(path).value))
  {
    hide ParseHierarchy, HostOf, Until, Span, HasControl, ToLower, SchemeChar, Unescape, HostName, RawPath;
    var u, hierarchy := Written(scheme, host, port, path, query), "//" + host + port + path;
    WrittenPlain(scheme, host, port, path, query);
    UntilFirst(u, fragment, '#');
    assert u == scheme + ":" + (hierarchy + query);
    SchemeOf(scheme, hierarchy + query);
    UntilFirst(hierarchy, query, '?');
    HostAndPath(host, port, path);
  }

  // ----- Segments -----

  lemma ConcatTail<T>(first: T, a: seq<T>, b: seq<T>)
    requires a != []
    ensures [first] + (a + b) == ([first] + a) + b
    ensures [first] + (a + b)[1..] == ([first] + a[1..]) + b
    ensures (a + b)[0] == a[0]
  {
  }

  lemma {:induction false} SplitConcat(a: string, b: string, sep: char)
    ensures Split(a + [sep] + b, sep) == Split(a, sep) + Split(b, sep)
  {
    var s := a + [sep] + b;
    if a == "" {
      assert s == [sep] + b;
      assert s[1..] == b;
    } else {
      SplitConcat(a[1..], b, sep);
      assert s[0] == a[0] && s[1..] == a[1..] + [sep] + b;
      var rest := Split(a[1..], sep);
      ConcatTail(if a[0] == sep then [] else [a[0]] + rest[0], rest, Split(b, sep));
    }
  }

  /** Empty segments and slashes at the ends make no difference. */
  lemma {:induction false} TrimLeftSegments(s: string)
    ensures NonEmpty(Split(TrimLeft(s, '/'), '/')) == NonEmpty(Split(s, '/'))
  {
    if s != "" && s[0] == '/' {
      TrimLeftSegments(s[1..]);
      FilterConcat([""], Split(s[1..], '/'), (p: string) => p != "");
      assert NonEmpty([""]) == [];
    }
  }

  lemma {:induction false} TrimRightSegments(s: string)
    ensures NonEmpty(Split(TrimRight(s, '/'), '/')) == NonEmpty(Split(s, '/'))
    decreases |s|
  {
    if s != "" && s[|s| - 1] == '/' {
      var init := s[..|s| - 1];
      TrimRightSegments(init);
      assert s == init + ['/'] + "";
      SplitConcat(init, "", '/');
      assert NonEmpty(Split(init, '/') + [""]) == NonEmpty(Split(init, '/'));
    }
  }

  lemma SegmentsUntrimmed(path: string)
    ensures Segments(path) == NonEmpty(Split(path, '/'))
  {
    TrimLeftSegments(path);
    TrimRightSegments(TrimLeft(path, '/'));
  }

  /** Segments of a path in two parts; with b == "" a trailing slash, with b == "/" + c a doubled one. */
  lemma SegmentsConcat(a: string, b: string)
    ensures Segments(a + "/" + b) == Segments(a) + Segments(b)
  {
    SegmentsUntrimmed(a + "/" + b);
    SegmentsUntrimmed(a);
    SegmentsUntrimmed(b);
    SplitConcat(a, b, '/');
    FilterConcat(Split(a, '/'), Split(b, '/'), (p: string) => p != "");
  }

  /** Segments as they stand in a canonical URL. */
  predicate PlainParts(parts: seq<string>) {
    parts != [] && forall p :: p in parts ==> IsSlug(p)
  }

  lemma {:induction false} JoinPlain(parts: seq<string>)
    requires PlainParts(parts)
    ensures var s := Join(parts, "/");
            && s != "" && SlugChar(s[0]) && SlugChar(s[|s| - 1])
            && forall i :: 0 <= i < |s| ==> SlugChar(s[i]) || s[i] == '/'
  {
    assert IsSlug(parts[0]);
    if |parts| > 1 {
      JoinPlain(parts[1..]);
    }
  }

  lemma TrimPath(s: string)
    requires s != "" && s[0] != '/' && s[|s| - 1] != '/'
    ensures TrimSlashes("/" + s) == s
  {
    assert ("/" + s)[1..] == s;
    assert TrimLeft(s, '/') == s;
  }

  lemma PathParts(parts: seq<string>)
    requires PlainParts(parts)
    ensures Split(TrimSlashes(Path(parts)), '/') == parts && Segments(Path(parts)) == parts
  {
    JoinPlain(parts);
    TrimPath(Join(parts, "/"));
    SplitJoin(parts, '/');
    FilterAll(parts, (p: string) => p != "");
  }

  lemma PathPlain(parts: seq<string>)
    requires PlainParts(parts)
    ensures RawPath(Path(parts)) && Unescape(Path(parts)) == Some(Path(parts))
    ensures var s := Path(parts); SlugChar(s[|s| - 1])
  {
    JoinPlain(parts);
    UnescapePlain(Path(parts));
  }

  // ----- Canonical URLs -----

  lemma EndsWithSlugChar(s: string)
    requires |s| >= 3 && SlugChar(s[|s| - 1]) && s[0] == 'h'
    ensures Trimmed(s)
  {
  }

  lemma KnownHost(host: string)
    requires host == CODEFORCES || host == LEETCODE || host == CODERUN
    ensures HostName(host) && StripWww(ToLower(host)) == host
  {
    forall i | 0 <= i < |host| ensures HostChar(host[i]) && LowerChar(host[i]) == host[i] {
    }
    assert ToLower(host) == host;
    assert host[0] != 'w' && "www."[0] == 'w';
  }

  lemma UrlTrimmed(host: string, parts: seq<string>)
    requires PlainParts(parts)
    ensures Trimmed(Url(host, parts))
  {
    hide Path, PlainParts, Unescape, SlugChar, Trimmed;
    PathPlain(parts);
    var s, path := Url(host, parts), Path(parts);
    assert s == (HTTPS + ":" + "//" + host) + path;
    assert s[|s| - 1] == path[|path| - 1];
    EndsWithSlugChar(s);
  }

  /** A URL built from a known host and plain segments parses to them. */
  lemma UrlParses(host: string, parts: seq<string>)
    requires (host == CODEFORCES || host == LEETCODE || host == CODERUN) && PlainParts(parts)
    ensures ParseHttps(Url(host, parts)) == Some(HttpsUrl(host, Path(parts)))
  {
    KnownHost(host);
    PathPlain(parts);
    assert ToLower(HTTPS) == HTTPS;
    ParseWritten(HTTPS, host, "", Path(parts), "", "");
    assert Url(host, parts) + "" == Url(host, parts);
  }

  lemma CasePlain(s: string)
    requires IsSlug(s)
    ensures IsSlug(ToUpper(s)) && IsSlug(ToLower(s))
    ensures ToUpper(ToUpper(s)) == ToUpper(s) && ToLower(ToLower(s)) == ToLower(s)
  {
  }

  lemma FixedSlugs()
    ensures IsSlug("problemset") && IsSlug("problem") && IsSlug("problems")
  {
  }

  lemma DigitsAreSlug(s: string)
    requires IsDigits(s)
    ensures IsSlug(s)
  {
  }

  /** The canonical segments are plain and resolve to themselves. */
  lemma ResolveTwice(host: string, parts: seq<string>)
    requires Resolve(host, parts).Some?
    ensures var page := Resolve(host, parts).value;
            PlainParts(page.1) && Resolve(host, page.1) == Some(page)
  {
    hide ToLower, ToUpper, IsSlug, IsDigits;
    FixedSlugs();
    if host == CODEFORCES {
      DigitsAreSlug(Resolve(host, parts).value.1[2]);
      CasePlain(parts[3]);
    } else {
      CasePlain(parts[1]);
    }
  }

  // ----- The collectors' own checks -----

  const MAX_INT: int := 0x7FFF_FFFF_FFFF_FFFF

  function DigitsValue(s: string): nat
    requires forall i :: 0 <= i < |s| ==> IsDigit(s[i])
  {
    if s == "" then 0
    else
      assert IsDigit(s[|s| - 1]);
      10 * DigitsValue(s[..|s| - 1]) + (s[|s| - 1] as int - '0' as int)
  }

  /** strconv.Atoi accepts s. */
  predicate AtoiOk(s: string) {
    var digits := if s != "" && (s[0] == '-' || s[0] == '+') then s[1..] else s;
    IsDigits(digits) && DigitsValue(digits) <= if s[0] == '-' then MAX_INT + 1 else MAX_INT
  }

  /** What the collectors split the path of their URL into. */
  function CollectorParts(path: string): seq<string> {
    Split(TrimSlashes(path), '/')
  }

  /** CollectURL of the source gets past its checks of the URL. */
  predicate CollectorAccepts(source: string, url: string) {
    var u := ParseHttps(url);
    u.Some? &&
    var parts := CollectorParts(u.value.path);
    if source == "codeforces" then
      && u.value.host == CODEFORCES && |parts| == 4 && parts[0] == "problemset" && parts[1] == "problem"
      && AtoiOk(parts[2]) && parts[3] != ""
    else if source == "leetcode" then
      u.value.host == LEETCODE && |parts| == 2 && parts[0] == "problems" && parts[1] != ""
    else
      source == "coderun" && u.value.host == CODERUN && |parts| == 2 && parts[0] == "problem" && parts[1] != ""
  }

  /** The number that a canonical Codeforces URL names. */
  function ContestNumber(url: string): string {
    var u := ParseHttps(url);
    if u.Some? && |CollectorParts(u.value.path)| == 4 then CollectorParts(u.value.path)[2] else ""
  }

  lemma UrlNormalized(host: string, parts: seq<string>)
    requires (host == CODEFORCES || host == LEETCODE || host == CODERUN) && PlainParts(parts)
    ensures Normalize(Url(host, parts)) == Canonical(host, parts)
  {
    UrlTrimmed(host, parts);
    UrlParses(host, parts);
    PathParts(parts);
    KnownHost(host);
  }

  lemma UrlCollected(host: string, parts: seq<string>)
    requires (host == CODEFORCES || host == LEETCODE || host == CODERUN) && PlainParts(parts)
    ensures var u := ParseHttps(Url(host, parts));
            u.Some? && u.value.host == host && CollectorParts(u.value.path) == parts
  {
    UrlParses(host, parts);
    PathParts(parts);
  }

  lemma CanonicalFixed(host: string, parts: seq<string>)
    requires Canonical(host, parts).Accepted?
    ensures var c := Canonical(host, parts); Normalize(c.url) == c
  {
    var page := Resolve(host, parts).value;
    ResolveTwice(host, parts);
    UrlNormalized(host, page.1);
  }

  lemma CanonicalCollected(host: string, parts: seq<string>)
    requires Canonical(host, parts).Accepted?
    ensures var c := Canonical(host, parts);
            && (c.source == "codeforces" ==> IsDigits(ContestNumber(c.url)))
            && (CollectorAccepts(c.source, c.url) <==>
                (c.source == "codeforces" ==> DigitsValue(ContestNumber(c.url)) <= MAX_INT))
  {
    hide ParseHttps, CollectorParts, DigitsValue, Url, ToLower, ToUpper;
    var page := Resolve(host, parts).value;
    ResolveTwice(host, parts);
    UrlCollected(host, page.1);
  }

  /**
   Canonicalisation is a retraction: a URL that is accepted maps to one that is accepted again and maps to itself with
   the same source; the collector of that source takes it, for Codeforces if and only if the contest number fits an
   int.
   */
  lemma NormalizeIsRetraction(raw: string)
    requires Normalize(raw).Accepted?
    ensures var c := Normalize(raw);
            && Normalize(c.url) == c
            && (c.source == "codeforces" ==> IsDigits(ContestNumber(c.url)))
            && (CollectorAccepts(c.source, c.url) <==>
                (c.source == "codeforces" ==> DigitsValue(ContestNumber(c.url)) <= MAX_INT))
  {
    var u := ParseHttps(TrimSpace(raw)).value;
    CanonicalFixed(StripWww(ToLower(u.host)), Segments(u.path));
    CanonicalCollected(StripWww(ToLower(u.host)), Segments(u.path));
  }

  // ----- A URL that its collector refuses -----

  const LARGE: string := "99999999999999999999"

  lemma PrefixValue(s: string, k: nat)
    requires k < |s| && forall i :: 0 <= i < |s| ==> IsDigit(s[i])
    ensures DigitsValue(s[..k + 1]) == 10 * DigitsValue(s[..k]) + (s[k] as int - '0' as int)
  {
    assert s[..k + 1][..k] == s[..k];
  }

  lemma LargeValue()
    ensures IsDigits(LARGE) && DigitsValue(LARGE) > MAX_INT
  {
    assert forall i :: 0 <= i < |LARGE| ==> LARGE[i] == '9';
    var value := 0;
    for k := 0 to |LARGE|
      invariant DigitsValue(LARGE[..k]) == value
      invariant value + 1 == Power10(k)
    {
      PrefixValue(LARGE, k);
      value := 10 * value + 9;
    }
    assert LARGE[..|LARGE|] == LARGE;
    Power10Of20();
  }

  function Power10(n: nat): nat {
    if n == 0 then 1 else 10 * Power10(n - 1)
  }

  lemma {:induction false} Power10Sum(a: nat, b: nat)
    ensures Power10(a + b) == Power10(a) * Power10(b)
  {
    if a > 0 {
      Power10Sum(a - 1, b);
    }
  }

  lemma Power10Of20()
    ensures Power10(20) == 100_000_000_000_000_000_000
  {
    assert Power10(1) == 10;
    Power10Sum(1, 1);
    Power10Sum(2, 2);
    Power10Sum(4, 1);
    Power10Sum(5, 5);
    Power10Sum(10, 10);
  }

  /**
   A URL that is accepted, is its own canonical form, and is refused by its collector: a contest number of 20 digits.
   */
  lemma LargeContestRefused() returns (url: string)
    ensures Normalize(url) == Accepted("codeforces", url) && !CollectorAccepts("codeforces", url)
  {
    hide ParseHttps, CollectorParts, DigitsValue, Url, AtoiOk, CollectorAccepts, Normalize;
    var parts := ["problemset", "problem", LARGE, "A"];
    LargeValue();
    LargePlain(parts);
    url := Url(CODEFORCES, parts);
    UrlNormalized(CODEFORCES, parts);
    UrlCollected(CODEFORCES, parts);
    NormalizeIsRetraction(url);
  }

  lemma LargePlain(parts: seq<string>)
    requires parts == ["problemset", "problem", LARGE, "A"]
    ensures PlainParts(parts) && Canonical(CODEFORCES, parts) == Accepted("codeforces", Url(CODEFORCES, parts))
  {
    LargeValue();
    assert ToUpper("A") == "A";
    assert IsSlug("problemset") && IsSlug("problem") && IsSlug("A") && IsSlug(LARGE);
  }

  // ----- Variants -----

  /**
   However the URL is written — white space around it, case of scheme and host, "www.", an empty port, percent-encoding,
   extra slashes, query, fragment — the result depends only on the host and on the decoded segments.
   */
  lemma WrittenVariants(raw: string, scheme: string, host: string, port: string, path: string, query: string,
                        fragment: string)
    requires TrimSpace(raw) == Written(scheme, host, port, path, query) + fragment
    requires ToLower(scheme) == HTTPS && HostName(host) && (port == "" || port == ":")
    requires RawPath(path) && RawQuery(query) && RawFragment(fragment) && Unescape(path).Some?
    ensures Normalize(raw) == Canonical(StripWww(ToLower(host)), Segments(Unescape(path).value))
  {
    ParseWritten(scheme, host, port, path, query, fragment);
  }

  /** A host that comes with "www." in any letter case, or without it: the same page. */
  lemma WwwVariants(raw: string, www: string, scheme: string, host: string, path: string)
    requires ToLower(scheme) == HTTPS && HostName(host) && RawPath(path) && Unescape(path).Some?
    requires TrimSpace(raw) == Written(scheme, www + host, "", path, "")
    requires ToLower(www) == "www." && StripWww(ToLower(host)) == ToLower(host)
    ensures Normalize(raw) == Canonical(ToLower(host), Segments(Unescape(path).value))
  {
    hide Unescape, Segments, Canonical, ParseHttps, RawPath, TrimSpace, Written, HostName, StripWww, Normalize,
        ToLower;
    NameOfWww(www, host);
    LowerConcat(www, host);
    assert Written(scheme, www + host, "", path, "") + "" == Written(scheme, www + host, "", path, "");
    WrittenVariants(raw, scheme, www + host, "", path, "", "");
    WwwMeaning(ToLower(host));
  }

  lemma LowerConcat(a: string, b: string)
    ensures ToLower(a + b) == ToLower(a) + ToLower(b)
  {
  }

  lemma NameOfWww(www: string, host: string)
    requires ToLower(www) == "www." && HostName(host)
    ensures HostName(www + host)
  {
    forall i | 0 <= i < |www| ensures HostChar(www[i]) {
      assert LowerChar(www[i]) == "www."[i];
    }
  }

  /** What is accepted at all: exactly these forms on these hosts. */
  lemma AcceptedForms(host: string, parts: seq<string>)
    ensures Canonical(host, parts).Accepted? <==>
            || (host == "codeforces.com" &&
                exists contest, index ::
                  && IsDigits(contest) && IsSlug(index) && |index| <= 8
                  && parts in {["problemset", "problem", contest, index], ["contest", contest, "problem", index]})
            || (host == "leetcode.com" &&
                exists slug ::
                  IsSlug(slug) && parts in {["problems", slug], ["problems", slug, "description"]})
            || (host == "coderun.yandex.ru" && exists slug :: IsSlug(slug) && parts == ["problem", slug])
  {
    hide IsSlug, IsDigits;
    DistinctHosts();
    if host == CODEFORCES && |parts| == 4 {
      if parts[0] == "problemset" {
        assert parts[1] == "problem" ==> parts == ["problemset", "problem", parts[2], parts[3]];
      } else if parts[0] == "contest" {
        assert parts[2] == "problem" ==> parts == ["contest", parts[1], "problem", parts[3]];
      }
    }
    if host == LEETCODE && |parts| == 2 && parts[0] == "problems" {
      assert parts == ["problems", parts[1]];
    }
    if host == LEETCODE && |parts| == 3 && parts[0] == "problems" && parts[2] == "description" {
      assert parts == ["problems", parts[1], "description"];
    }
    if host == CODERUN && |parts| == 2 && parts[0] == "problem" {
      assert parts == ["problem", parts[1]];
    }
  }

  lemma DistinctHosts()
    ensures CODEFORCES != LEETCODE && LEETCODE != CODERUN && CODEFORCES != CODERUN
  {
    assert |LEETCODE| != |CODEFORCES| && |CODERUN| != |CODEFORCES| && |CODERUN| != |LEETCODE|;
  }

  lemma {:induction false} SpanSplit(s: string, p: char -> bool)
    ensures var a := Span(s, p);
            && (forall i :: 0 <= i < |a| ==> p(a[i])) && (|a| < |s| ==> !p(s[|a|]))
  {
    if s != "" && p(s[0]) {
      SpanSplit(s[1..], p);
    }
  }

  lemma UntilSplit(s: string, c: char)
    ensures var a := Until(s, c);
            s == a + s[|a|..] && c !in a && (|a| < |s| ==> s[|a|] == c)
  {
    SpanSplit(s, x => x != c);
  }

  /** The host of an accepted authority: no user, no port but an empty one. */
  lemma HostIs(authority: string) returns (port: string)
    requires HostOf(authority).Some? && HostName(HostOf(authority).value)
    ensures authority == HostOf(authority).value + port && (port == "" || port == ":")
  {
    var host := HostOf(authority).value;
    port := authority[|host|..];
  }

  lemma NameOfLower(host: string)
    requires HostName(ToLower(host))
    ensures HostName(host)
  {
    var lower := ToLower(host);
    forall i | 0 <= i < |host| ensures HostChar(host[i]) {
      assert HostChar(lower[i]) && LowerChar(host[i]) == lower[i];
    }
  }

  lemma NameWithWww(lower: string)
    requires HostName(StripWww(lower))
    ensures HostName(lower)
  {
    if "www." <= lower {
      assert lower == "www." + StripWww(lower);
      forall i | 0 <= i < |lower| ensures HostChar(lower[i]) {
        assert i >= 4 ==> lower[i] == StripWww(lower)[i - 4];
      }
    }
  }

  lemma AcceptedHost(host: string, parts: seq<string>)
    requires Canonical(StripWww(ToLower(host)), parts).Accepted?
    ensures StripWww(ToLower(host)) in {"codeforces.com", "leetcode.com", "coderun.yandex.ru"} && HostName(host)
  {
    hide HostName, ToLower, StripWww;
    KnownHost(StripWww(ToLower(host)));
    NameWithWww(ToLower(host));
    NameOfLower(host);
  }

  /** What url.Parse accepts, taken apart. */
  lemma ParsedParts(s: string) returns (scheme: string, hierarchy: string, query: string, fragment: string)
    requires ParseHttps(s).Some?
    ensures s == scheme + ":" + hierarchy + query + fragment && ToLower(scheme) == HTTPS && RawFragment(fragment)
    ensures '#' !in scheme + ":" + hierarchy + query && !HasControl(scheme + ":" + hierarchy + query)
    ensures '?' !in hierarchy && (query == "" || query[0] == '?') && ParseHierarchy(hierarchy) == ParseHttps(s)
  {
    hide Unescape, ParseHierarchy, Until, Span, HasControl, SchemeChar, ToLower;
    var u := Until(s, '#');
    UntilSplit(s, '#');
    fragment, scheme := s[|u|..], Span(u, SchemeChar);
    var rest := u[|scheme| + 1..];
    hierarchy := Until(rest, '?');
    UntilSplit(rest, '?');
    query := rest[|hierarchy|..];
    assert u == scheme + ":" + rest;
    assert u == scheme + ":" + hierarchy + query;
  }

  lemma ParsedHierarchy(hierarchy: string) returns (authority: string, path: string)
    requires ParseHierarchy(hierarchy).Some?
    ensures hierarchy == "//" + authority + path && (path == "" || path[0] == '/')
    ensures HostOf(authority) == Some(ParseHierarchy(hierarchy).value.host)
    ensures Unescape(path) == Some(ParseHierarchy(hierarchy).value.path)
  {
    hide Unescape, Until, HostOf;
    var tail := hierarchy[2..];
    authority := Until(tail, '/');
    UntilSplit(tail, '/');
    path := tail[|authority|..];
    assert hierarchy == "//" + tail;
    assert hierarchy == "//" + authority + path;
  }

  lemma EmptyPath(host: string)
    ensures Unescape("") == Some("") && Canonical(host, Segments("")) == Rejected
  {
    assert Split("", '/') == [""];
    assert Segments("") == [];
  }

  /**
   The converse of WrittenVariants: only what is written so is accepted. In particular an accepted URL is https, has no
   user and no port, and names one of the three hosts.
   */
  lemma AcceptedIsWritten(raw: string)
    returns (scheme: string, host: string, port: string, path: string, query: string, fragment: string)
    requires Normalize(raw).Accepted?
    ensures TrimSpace(raw) == Written(scheme, host, port, path, query) + fragment
    ensures ToLower(scheme) == "https" && HostName(host) && (port == "" || port == ":")
    ensures StripWww(ToLower(host)) in {"codeforces.com", "leetcode.com", "coderun.yandex.ru"}
    ensures RawPath(path) && RawQuery(query) && RawFragment(fragment) && Unescape(path).Some?
  {
    hide Unescape, Canonical, TrimSpace, HostOf, HasControl, Segments, HostName, ParseHttps, ParseHierarchy, ToLower,
        StripWww, RawFragment;
    var s := TrimSpace(raw);
    var hierarchy, authority;
    scheme, hierarchy, query, fragment := ParsedParts(s);
    authority, path := ParsedHierarchy(hierarchy);
    host := ParseHttps(s).value.host;
    AcceptedHost(host, Segments(ParseHttps(s).value.path));
    EmptyPath(StripWww(ToLower(host)));
    port := HostIs(authority);
    assert "//" + authority + path == "//" + host + port + path;
    assert s == Written(scheme, host, port, path, query) + fragment;
    PartLacks("//" + authority, path, "", '?');
    assert scheme + ":" + hierarchy + query == scheme + ":" + "//" + authority + path + query;
    PartLacks(scheme + ":" + "//" + authority, path, query, '#');
    PartPlain(scheme + ":" + "//" + authority, path, query);
    assert scheme + ":" + hierarchy + query == scheme + ":" + hierarchy + query + "";
    PartLacks(scheme + ":" + hierarchy, query, "", '#');
    PartPlain(scheme + ":" + hierarchy, query, "");
  }

  lemma PartLacks(a: string, b: string, c: string, x: char)
    requires x !in a + b + c
    ensures x !in b
  {
  }

  lemma PartPlain(a: string, b: string, c: string)
    requires !HasControl(a + b + c)
    ensures !HasControl(b)
  {
    var s := a + b + c;
    forall i | 0 <= i < |b| ensures !(b[i] < ' ' || b[i] == '\U{7F}') {
      assert s[|a| + i] == b[i];
    }
  }

  /** Contest and problem-set form, and letter case of the index. */
  lemma CodeforcesVariants(contest: string, a: string, b: string)
    requires IsDigits(contest) && IsProblemIndex(a) && IsProblemIndex(b) && ToUpper(a) == ToUpper(b)
    ensures Canonical(CODEFORCES, ["contest", contest, "problem", a])
         == Canonical(CODEFORCES, ["problemset", "problem", contest, b])
         == Accepted("codeforces", Url(CODEFORCES, ["problemset", "problem", contest, ToUpper(a)]))
  {
    assert "contest" != "problemset" by {
      assert |"contest"| != |"problemset"|;
    }
  }

  /** With or without "description", and letter case of the slug. */
  lemma LeetcodeVariants(a: string, b: string)
    requires IsSlug(a) && IsSlug(b) && ToLower(a) == ToLower(b)
    ensures Canonical(LEETCODE, ["problems", a, "description"]) == Canonical(LEETCODE, ["problems", b])
         == Accepted("leetcode", Url(LEETCODE, ["problems", ToLower(a)]))
  {
    assert LEETCODE[0] != CODEFORCES[0];
  }

  lemma CoderunVariants(a: string, b: string)
    requires IsSlug(a) && IsSlug(b) && ToLower(a) == ToLower(b)
    ensures Canonical(CODERUN, ["problem", a]) == Canonical(CODERUN, ["problem", b])
         == Accepted("coderun", Url(CODERUN, ["problem", ToLower(a)]))
  {
    assert |CODERUN| != |CODEFORCES| && |CODERUN| != |LEETCODE|;
  }

  /** Two accepted URLs get one canonical URL if and only if they name the same page. */
  lemma OneUrlPerPage(host: string, parts: seq<string>, host': string, parts': seq<string>)
    requires Canonical(host, parts).Accepted? && Canonical(host', parts').Accepted?
    ensures Canonical(host, parts).url == Canonical(host', parts').url <==>
            Resolve(host, parts) == Resolve(host', parts')
  {
    var page, page' := Resolve(host, parts).value, Resolve(host', parts').value;
    ResolveTwice(host, parts);
    ResolveTwice(host', parts');
    UrlCollected(host, page.1);
    UrlCollected(host', page'.1);
    HostIsSource(host, parts, host', parts');
  }

  lemma HostIsSource(host: string, parts: seq<string>, host': string, parts': seq<string>)
    requires Resolve(host, parts).Some? && Resolve(host', parts').Some?
    ensures Resolve(host, parts).value.0 == Resolve(host', parts').value.0 <==> host == host'
  {
    assert |"codeforces"| != |"leetcode"| && |"leetcode"| != |"coderun"| && |"codeforces"| != |"coderun"|;
  }
}
