/**
 The paged Telegram reader: ReadRange walks a channel history from new to old, truncating to the
 oldest `limit` messages after every page. Message dates are whole seconds.
 */
module TelegramReader {
  import opened Instants
  import opened Sequences

  const PAGE_LIMIT: int := 100

  /**
   One entry of a channel history: an ordinary message, or a service entry the reader skips. Of the text only
   whether it is blank matters: `blank` is strings.TrimSpace(text) == "".
   */
  datatype Entry =
    | Service(id: int, date: int)
    | Message(id: int, date: int, blank: bool)

  function Id(e: Entry): int {
    e.id
  }

  /** IDs are positive and increase; dates never decrease as IDs grow. */
  predicate ValidHistory(h: seq<Entry>) {
    h == [] ||
    (var init, last := h[..|h| - 1], h[|h| - 1];
     && ValidHistory(init)
     && last.id > 0
     && (init != [] ==> init[|init| - 1].id < last.id && init[|init| - 1].date <= last.date))
  }

  lemma {:induction false} HistoryOrder(h: seq<Entry>, i: nat, j: nat)
    requires ValidHistory(h) && i <= j < |h|
    ensures 0 < h[i].id <= h[j].id && h[i].date <= h[j].date
    ensures i < j ==> h[i].id < h[j].id
  {
    var init := h[..|h| - 1];
    if j < |h| - 1 {
      HistoryOrder(init, i, j);
      assert init[i] == h[i] && init[j] == h[j];
    } else if i < j {
      HistoryOrder(init, i, j - 1);
      assert init[i] == h[i];
    }
  }

  lemma {:induction false} HistoryPrefix(h: seq<Entry>, n: nat)
    requires ValidHistory(h) && n <= |h|
    ensures ValidHistory(h[..n])
  {
    if n < |h| {
      HistoryPrefix(h[..|h| - 1], n);
      assert h[..|h| - 1][..n] == h[..n];
    } else {
      assert h[..n] == h;
    }
  }

  lemma HistoryPositive(h: seq<Entry>)
    requires ValidHistory(h)
    ensures forall i :: 0 <= i < |h| ==> h[i].id > 0
  {
    forall i | 0 <= i < |h| ensures h[i].id > 0 {
      HistoryOrder(h, i, i);
    }
  }

  lemma HistoryIncreasing(h: seq<Entry>)
    requires ValidHistory(h)
    ensures Increasing(h, Id)
  {
    forall i, j | 0 <= i < j < |h| ensures Id(h[i]) < Id(h[j]) {
      HistoryOrder(h, i, j);
    }
  }

  // ----- The server's page contract -----

  predicate Visible(e: Entry, offsetId: int, offsetDate: int, minId: int) {
    (offsetId == 0 || e.id < offsetId) && e.date < offsetDate && e.id > minId
  }

  /** What messages.getHistory may return for these parameters, oldest first. */
  function Window(h: seq<Entry>, offsetId: int, offsetDate: int, minId: int): seq<Entry> {
    Filter(h, (e: Entry) => Visible(e, offsetId, offsetDate, minId))
  }

  function Reverse(s: seq<Entry>): (r: seq<Entry>)
    ensures |r| == |s|
    ensures forall i :: 0 <= i < |s| ==> r[i] == s[|s| - 1 - i]
  {
    if s == [] then [] else Reverse(s[1..]) + [s[0]]
  }

  /** One page: the `limit` newest visible entries, newest first. */
  function Page(h: seq<Entry>, offsetId: int, offsetDate: int, minId: int, limit: nat): seq<Entry> {
    var w := Window(h, offsetId, offsetDate, minId);
    Reverse(w[if |w| <= limit then 0 else |w| - limit..])
  }

  /**
   The Telegram side of the reader: an append-only history that may grow before any answer. `fails` tells which of the
   requests fail, in the order in which they are made.
   */
  class Channel {
    const fails: nat -> bool
    var history: seq<Entry>
    var requests: nat

    constructor (h: seq<Entry>, fails: nat -> bool)
      ensures history == h && requests == 0 && this.fails == fails
    {
      history, requests := h, 0;
      this.fails := fails;
    }

    /** Answers one request, or fails; new entries may have been posted before it is served. */
    method GetHistory(offsetId: int, offsetDate: int, minId: int, limit: nat)
      returns (ok: bool, page: seq<Entry>)
      requires ValidHistory(history)
      modifies this
      ensures ValidHistory(history) && old(history) <= history
      ensures requests == old(requests) + 1 && ok == !fails(old(requests))
      ensures ok ==> page == Page(history, offsetId, offsetDate, minId, limit)
    {
      var posted: seq<Entry> := *;
      if ValidHistory(history + posted) {
        history := history + posted;
      }
      ok := !fails(requests);
      requests := requests + 1;
      page := Page(history, offsetId, offsetDate, minId, limit);
    }
  }

  // ----- What the reader selects -----

  /** A text message. */
  predicate Text(e: Entry) {
    e.Message? && !e.blank
  }

  /** An entry that a run over [from, to) after message `afterId` is to hand on. */
  predicate Eligible(e: Entry, from: Instant, to: Instant, afterId: int) {
    Text(e) && AtMost(from, Second(e.date)) && Before(Second(e.date), to) && e.id > afterId
  }

  function EligibleEntries(h: seq<Entry>, from: Instant, to: Instant, afterId: int): seq<Entry> {
    Filter(h, (e: Entry) => Eligible(e, from, to, afterId))
  }

  /** The simple form: filter the whole history, keep the `limit` smallest IDs. */
  function OldestEligible(h: seq<Entry>, from: Instant, to: Instant, afterId: int, limit: nat): seq<Entry> {
    Take(EligibleEntries(h, from, to, afterId), limit)
  }

  predicate AllService(s: seq<Entry>) {
    forall i :: 0 <= i < |s| ==> s[i].Service?
  }

  /** PAGE_LIMIT consecutive service entries start at i. */
  predicate ServiceRun(w: seq<Entry>, i: nat) {
    i + PAGE_LIMIT <= |w| && forall j :: i <= j < i + PAGE_LIMIT ==> w[j].Service?
  }

  /** End of the newest run of PAGE_LIMIT service entries, or 0: the reader never looks below it. */
  function Horizon(w: seq<Entry>): (c: nat)
    ensures c == 0 || (PAGE_LIMIT <= c <= |w| && ServiceRun(w, c - PAGE_LIMIT))
    ensures forall i: nat :: ServiceRun(w, i) ==> i + PAGE_LIMIT <= c
  {
    if |w| < PAGE_LIMIT then 0
    else if ServiceRun(w, |w| - PAGE_LIMIT) then |w|
    else
      var init := w[..|w| - 1];
      assert forall i: nat :: ServiceRun(w, i) && i + PAGE_LIMIT < |w| ==> ServiceRun(init, i);
      Horizon(init)
  }

  /** Exactly what ReadRange returns on a history. */
  function ReadResult(h: seq<Entry>, from: Instant, to: Instant, afterId: int, limit: nat): seq<Entry> {
    var w := Window(h, 0, to.Floor, afterId);
    OldestEligible(w[Horizon(w)..], from, to, afterId, limit)
  }

  // ----- Lemmas about the server's answers -----

  lemma {:induction false} FilterValid(h: seq<Entry>, p: Entry -> bool)
    requires ValidHistory(h)
    ensures ValidHistory(Filter(h, p))
  {
    if h != [] {
      var init, last := h[..|h| - 1], h[|h| - 1];
      FilterValid(init, p);
      var rest := Filter(init, p);
      if rest != [] {
        assert rest[|rest| - 1] in init;
        var i :| 0 <= i < |init| && init[i] == rest[|rest| - 1];
        HistoryOrder(h, i, |h| - 1);
      }
      assert p(last) ==> (rest + [last])[..|rest|] == rest;
    }
  }

  /** Entries of w below the ID of w[p] are the first p. */
  lemma BelowOffset(w: seq<Entry>, p: nat, offsetId: int)
    requires ValidHistory(w) && p < |w| && w[p].id == offsetId
    ensures Filter(w, (e: Entry) => e.id < offsetId) == w[..p]
  {
    forall i | 0 <= i < |w| ensures w[i].id < offsetId <==> i < p {
      if i < p {
        HistoryOrder(w, i, p);
      } else {
        HistoryOrder(w, p, i);
      }
    }
    FilterCut(w, (e: Entry) => e.id < offsetId, p);
  }

  /** Entries posted after e are not below it. */
  lemma PostedAbove(h0: seq<Entry>, h: seq<Entry>, e: Entry)
    requires ValidHistory(h) && h0 <= h && e in h0
    ensures forall x :: x in h[|h0|..] ==> x.id > e.id
  {
    var i :| 0 <= i < |h0| && h0[i] == e;
    forall x | x in h[|h0|..] ensures x.id > e.id {
      var j :| |h0| <= j < |h| && h[j] == x;
      HistoryOrder(h, i, j);
    }
  }

  /** Later pages see the same entries below the offset, whatever has been posted since the first page. */
  lemma WindowBelow(h0: seq<Entry>, h: seq<Entry>, p: nat, offsetId: int, offsetDate: int, minId: int)
    requires ValidHistory(h0) && ValidHistory(h) && h0 <= h && offsetId > 0
    requires var w := Window(h0, 0, offsetDate, minId); p < |w| && w[p].id == offsetId
    ensures Window(h, offsetId, offsetDate, minId) == Window(h0, 0, offsetDate, minId)[..p]
  {
    var all := (e: Entry) => Visible(e, 0, offsetDate, minId);
    var below := (e: Entry) => Visible(e, offsetId, offsetDate, minId);
    var older := (e: Entry) => e.id < offsetId;
    var w, posted := Filter(h0, all), h[|h0|..];
    PostedAbove(h0, h, w[p]);
    assert h == h0 + posted;
    FilterConcat(h0, posted, below);
    FilterNone(posted, below);
    FilterFilter(h0, all, older, below);
    FilterValid(h0, all);
    BelowOffset(w, p, offsetId);
  }

  lemma {:induction false} ReverseFilter(s: seq<Entry>, p: Entry -> bool)
    ensures multiset(Filter(Reverse(s), p)) == multiset(Filter(s, p))
  {
    if s != [] {
      ReverseFilter(s[1..], p);
      FilterConcat(Reverse(s[1..]), [s[0]], p);
      FilterConcat([s[0]], s[1..], p);
      assert s == [s[0]] + s[1..];
    }
  }

  // ----- Lemmas about the selection -----

  lemma EligibleConcat(a: seq<Entry>, b: seq<Entry>, from: Instant, to: Instant, afterId: int)
    ensures EligibleEntries(a + b, from, to, afterId)
         == EligibleEntries(a, from, to, afterId) + EligibleEntries(b, from, to, afterId)
  {
    FilterConcat(a, b, (e: Entry) => Eligible(e, from, to, afterId));
  }

  lemma NoneEligible(s: seq<Entry>, from: Instant, to: Instant, afterId: int)
    requires forall e :: e in s ==> !Eligible(e, from, to, afterId)
    ensures EligibleEntries(s, from, to, afterId) == []
  {
    FilterNone(s, (e: Entry) => Eligible(e, from, to, afterId));
  }

  /** Ineligible entries at the front of a suffix do not matter. */
  lemma SkipIneligible(w: seq<Entry>, a: nat, b: nat, from: Instant, to: Instant, afterId: int)
    requires a <= b <= |w|
    requires forall j :: a <= j < b ==> !Eligible(w[j], from, to, afterId)
    ensures EligibleEntries(w[a..], from, to, afterId) == EligibleEntries(w[b..], from, to, afterId)
  {
    assert w[a..] == w[a..b] + w[b..];
    EligibleConcat(w[a..b], w[b..], from, to, afterId);
    NoneEligible(w[a..b], from, to, afterId);
  }

  // ----- The reader -----

  /** The smallest ordinary ID among the messages, or 0. */
  function OldestOrdinary(messages: seq<Entry>): int {
    if messages == [] then 0
    else
      var rest := OldestOrdinary(messages[..|messages| - 1]);
      var last := messages[|messages| - 1];
      if last.Message? && (rest == 0 || last.id < rest) then last.id else rest
  }

  lemma {:induction false} OldestOrdinaryIsLeast(messages: seq<Entry>) returns (k: nat)
    requires forall i :: 0 <= i < |messages| ==> messages[i].id > 0
    ensures OldestOrdinary(messages) == 0 <==> AllService(messages)
    ensures OldestOrdinary(messages) != 0 ==>
              k < |messages| && messages[k].Message? && messages[k].id == OldestOrdinary(messages)
    ensures forall i :: 0 <= i < |messages| && messages[i].Message? ==> OldestOrdinary(messages) <= messages[i].id
  {
    k := 0;
    if messages != [] {
      var init := messages[..|messages| - 1];
      k := OldestOrdinaryIsLeast(init);
      assert forall i :: 0 <= i < |messages| - 1 ==> messages[i] == init[i];
      if OldestOrdinary(messages) != OldestOrdinary(init) {
        k := |messages| - 1;
      }
    }
  }

  /** Some ordinary message is dated before the range. */
  predicate ReachesBefore(messages: seq<Entry>, from: Instant)
    ensures ReachesBefore(messages, from) <==>
              exists i :: 0 <= i < |messages| && messages[i].Message? && Before(Second(messages[i].date), from)
  {
    if messages == [] then false
    else
      var init, last := messages[..|messages| - 1], messages[|messages| - 1];
      assert forall i :: 0 <= i < |init| ==> messages[i] == init[i];
      ReachesBefore(init, from) || (last.Message? && Before(Second(last.date), from))
  }

  /** What one more message does to the three results of a page scan. */
  lemma ScanOne(s: seq<Entry>, i: nat, from: Instant, to: Instant, afterId: int)
    requires i < |s|
    ensures EligibleEntries(s[..i + 1], from, to, afterId)
         == EligibleEntries(s[..i], from, to, afterId) + if Eligible(s[i], from, to, afterId) then [s[i]] else []
    ensures var oldest := OldestOrdinary(s[..i]);
            OldestOrdinary(s[..i + 1]) == if s[i].Message? && (oldest == 0 || s[i].id < oldest) then s[i].id else oldest
    ensures ReachesBefore(s[..i + 1], from) <==>
              ReachesBefore(s[..i], from) || (s[i].Message? && Before(Second(s[i].date), from))
  {
    assert s[..i + 1][..i] == s[..i];
  }

  /** Reads one page: appends its eligible entries and reports its oldest ordinary ID, or 0. */
  method ScanPage(messages: seq<Entry>, from: Instant, to: Instant, afterId: int, soFar: seq<Entry>)
    returns (items: seq<Entry>, oldestId: int, beforeRange: bool)
    ensures items == soFar + EligibleEntries(messages, from, to, afterId)
    ensures oldestId == OldestOrdinary(messages)
    ensures beforeRange == ReachesBefore(messages, from)
  {
    items, oldestId, beforeRange := soFar, 0, false;
    for i := 0 to |messages|
      invariant items == soFar + EligibleEntries(messages[..i], from, to, afterId)
      invariant oldestId == OldestOrdinary(messages[..i])
      invariant beforeRange == ReachesBefore(messages[..i], from)
    {
      var message := messages[i];
      ScanOne(messages, i, from, to, afterId);
      if message.Message? {
        if oldestId == 0 || message.id < oldestId {
          oldestId := message.id;
        }
        if Before(Second(message.date), from) {
          beforeRange := true;
        } else if Before(Second(message.date), to) && message.id > afterId && !message.blank {
          items := items + [message];
        }
      }
    }
    assert messages[..|messages|] == messages;
  }

  // ----- The paging loop -----

  /** items is some arrangement of the oldest `limit` eligible entries of w[p..]. */
  ghost predicate Collected(items: seq<Entry>, w: seq<Entry>, p: nat, from: Instant, to: Instant, afterId: int,
                            limit: nat)
    requires p <= |w|
  {
    multiset(items) == multiset(OldestEligible(w[p..], from, to, afterId, limit))
  }

  function PageStart(p: nat): nat { if p <= PAGE_LIMIT then 0 else p - PAGE_LIMIT }

  lemma ReversedPage(page: seq<Entry>, from: Instant, to: Instant, afterId: int)
    requires forall i :: 0 <= i < |page| ==> page[i].id > 0
    ensures multiset(EligibleEntries(Reverse(page), from, to, afterId))
            == multiset(EligibleEntries(page, from, to, afterId))
    ensures OldestOrdinary(Reverse(page)) >= 0
    ensures OldestOrdinary(Reverse(page)) == 0 <==> AllService(page)
    ensures ReachesBefore(Reverse(page), from) ==> ReachesBefore(page, from)
  {
    var messages := Reverse(page);
    ReverseFilter(page, (e: Entry) => Eligible(e, from, to, afterId));
    assert forall i :: 0 <= i < |page| ==> page[i] == messages[|page| - 1 - i];
    var k := OldestOrdinaryIsLeast(messages);
  }

  /** The final sort and truncation of the collected entries. */
  lemma FinalOrder(items: seq<Entry>, w: seq<Entry>, from: Instant, to: Instant, afterId: int, limit: nat)
    requires ValidHistory(w)
    requires multiset(items) == multiset(OldestEligible(w[Horizon(w)..], from, to, afterId, limit))
    ensures Take(SortBy(items, Id), limit) == OldestEligible(w[Horizon(w)..], from, to, afterId, limit)
  {
    SuffixIncreasing(w, Horizon(w), from, to, afterId);
    SortRestores(items, OldestEligible(w[Horizon(w)..], from, to, afterId, limit), Id);
  }

  /** After one more page, items holds the oldest eligible entries from the start of that page on. */
  lemma PageCollected(before: seq<Entry>, appended: seq<Entry>, w: seq<Entry>, q: nat, p: nat,
                      from: Instant, to: Instant, afterId: int, limit: nat)
    requires ValidHistory(w) && q <= p <= |w|
    requires Collected(before, w, p, from, to, afterId, limit)
    requires multiset(appended) == multiset(EligibleEntries(w[q..p], from, to, afterId))
    ensures Collected(SortTruncate(before + appended, limit, Id), w, q, from, to, afterId, limit)
  {
    hide EligibleEntries, Filter, Take, SortTruncate, SortBy, ValidHistory, Increasing;
    var a, b := EligibleEntries(w[q..p], from, to, afterId), EligibleEntries(w[p..], from, to, afterId);
    assert EligibleEntries(w[q..], from, to, afterId) == a + b by {
      assert w[q..] == w[q..p] + w[p..];
      EligibleConcat(w[q..p], w[p..], from, to, afterId);
    }
    SuffixIncreasing(w, q, from, to, afterId);
    TruncateEarly(before + appended, a, b, limit, Id);
  }

  lemma SuffixIncreasing(w: seq<Entry>, q: nat, from: Instant, to: Instant, afterId: int)
    requires ValidHistory(w) && q <= |w|
    ensures Increasing(EligibleEntries(w[q..], from, to, afterId), Id)
  {
    HistoryIncreasing(w);
    FilterIncreasing(w[q..], (e: Entry) => Eligible(e, from, to, afterId), Id);
  }

  /** A full page without an ordinary entry is the horizon. */
  lemma ServicePageIsHorizon(w: seq<Entry>, p: nat)
    requires Horizon(w) <= p <= |w| && PAGE_LIMIT <= p && AllService(w[p - PAGE_LIMIT..p])
    ensures Horizon(w) == p
  {
    var q := p - PAGE_LIMIT;
    assert forall j :: q <= j < p ==> w[j] == w[q..p][j - q];
    assert ServiceRun(w, q);
  }

  /** Between a page start and a horizon inside that page there are only service entries. */
  lemma HorizonInsidePage(w: seq<Entry>, p: nat)
    requires Horizon(w) <= p <= |w|
    ensures forall j :: PageStart(p) <= j < Horizon(w) ==> w[j].Service?
  {
  }

  /** Dates never decrease, so nothing older than an entry dated before the range is eligible. */
  lemma BelowBeforeRange(w: seq<Entry>, q: nat, p: nat, from: Instant, to: Instant, afterId: int)
    requires ValidHistory(w) && q <= p <= |w| && ReachesBefore(w[q..p], from)
    ensures forall j :: 0 <= j < q ==> !Eligible(w[j], from, to, afterId)
  {
    var i :| 0 <= i < |w[q..p]| && w[q..p][i].Message? && Before(Second(w[q..p][i].date), from);
    assert w[q..p][i] == w[q + i];
    forall j | 0 <= j < q ensures !Eligible(w[j], from, to, afterId) {
      HistoryOrder(w, j, q + i);
    }
  }

  /** When the loop stops at a page, nothing between the page and the horizon is eligible. */
  lemma StopIsComplete(w: seq<Entry>, p: nat, from: Instant, to: Instant, afterId: int)
    requires ValidHistory(w) && Horizon(w) <= p <= |w|
    requires var q := PageStart(p); p - q < PAGE_LIMIT || AllService(w[q..p]) || ReachesBefore(w[q..p], from)
    ensures EligibleEntries(w[PageStart(p)..], from, to, afterId) == EligibleEntries(w[Horizon(w)..], from, to, afterId)
  {
    var c, q := Horizon(w), PageStart(p);
    if q < c {
      HorizonInsidePage(w, p);
      SkipIneligible(w, q, c, from, to, afterId);
    } else if q > 0 {
      if AllService(w[q..p]) {
        ServicePageIsHorizon(w, p);
      }
      BelowBeforeRange(w, q, p, from, to, afterId);
      SkipIneligible(w, c, q, from, to, afterId);
    }
  }

  lemma OlderAreService(w: seq<Entry>, q: nat, p: nat, messages: seq<Entry>, next: nat)
    requires ValidHistory(w) && q <= next < p <= |w| && messages == Reverse(w[q..p])
    requires forall i :: 0 <= i < |messages| && messages[i].Message? ==> w[next].id <= messages[i].id
    ensures forall j :: q <= j < next ==> w[j].Service?
  {
    hide ValidHistory, Reverse;
    var page := w[q..p];
    forall j | q <= j < next ensures w[j].Service? {
      HistoryOrder(w, j, next);
      assert page[j - q] == w[j];
      assert messages[|page| - 1 - (j - q)] == page[j - q];
    }
  }

  /** The oldest ordinary entry of a page, as an index into the window. */
  lemma OldestInPage(w: seq<Entry>, q: nat, p: nat) returns (next: nat)
    requires ValidHistory(w) && q <= p <= |w|
    requires OldestOrdinary(Reverse(w[q..p])) != 0
    ensures q <= next < p && w[next].Message?
    ensures w[next].id == OldestOrdinary(Reverse(w[q..p]))
    ensures forall j :: q <= j < next ==> w[j].Service?
  {
    hide OldestOrdinary, ValidHistory, AllService;
    var messages := Reverse(w[q..p]);
    forall i | 0 <= i < |messages| ensures messages[i].id > 0 {
      HistoryOrder(w, p - 1 - i, p - 1 - i);
    }
    var k := OldestOrdinaryIsLeast(messages);
    next := p - 1 - k;
    assert messages[k] == w[next];
    OlderAreService(w, q, p, messages, next);
  }

  /** A full page with an ordinary entry: its oldest ordinary entry is the next offset. */
  lemma NextOffset(w: seq<Entry>, p: nat, from: Instant, to: Instant, afterId: int) returns (next: nat)
    requires ValidHistory(w) && Horizon(w) <= p <= |w| && PAGE_LIMIT <= p
    requires OldestOrdinary(Reverse(w[p - PAGE_LIMIT..p])) != 0
    ensures Horizon(w) <= next < p
    ensures w[next].id == OldestOrdinary(Reverse(w[p - PAGE_LIMIT..p]))
    ensures EligibleEntries(w[p - PAGE_LIMIT..], from, to, afterId) == EligibleEntries(w[next..], from, to, afterId)
  {
    hide EligibleEntries, Filter, ValidHistory, OldestOrdinary, Reverse;
    next := OldestInPage(w, p - PAGE_LIMIT, p);
    HorizonInsidePage(w, p);
    SkipIneligible(w, p - PAGE_LIMIT, next, from, to, afterId);
  }

  lemma PageOfWindow(h: seq<Entry>, w: seq<Entry>, p: nat, offsetId: int, offsetDate: int, minId: int)
    requires p <= |w| && Window(h, offsetId, offsetDate, minId) == w[..p]
    ensures Page(h, offsetId, offsetDate, minId, PAGE_LIMIT) == Reverse(w[PageStart(p)..p])
  {
    assert w[..p][PageStart(p)..] == w[PageStart(p)..p];
  }

  /** After such a page there may be more: it is full, has an ordinary message and does not reach before the range. */
  predicate GoesOn(messages: seq<Entry>, from: Instant) {
    |messages| >= PAGE_LIMIT && !AllService(messages) && !ReachesBefore(messages, from)
  }

  /** One page of the loop: collect, truncate, and decide whether to stop or where to go on. */
  method HandlePage(messages: seq<Entry>, from: Instant, to: Instant, afterId: int, limit: nat, soFar: seq<Entry>,
                    ghost w: seq<Entry>, ghost p: nat)
    returns (items: seq<Entry>, stop: bool, oldestId: int, ghost next: nat)
    requires ValidHistory(w) && Horizon(w) <= p <= |w| && messages == Reverse(w[PageStart(p)..p])
    requires Collected(soFar, w, p, from, to, afterId, limit)
    ensures stop ==> multiset(items) == multiset(OldestEligible(w[Horizon(w)..], from, to, afterId, limit))
    ensures !stop ==> Horizon(w) <= next < p && w[next].id == oldestId
    ensures !stop ==> Collected(items, w, next, from, to, afterId, limit)
    ensures stop <==> !GoesOn(messages, from)
  {
    hide EligibleEntries, Filter, ValidHistory, Eligible, SortTruncate, Take, ReachesBefore, OldestOrdinary;
    ghost var page := w[PageStart(p)..p];
    if |messages| == 0 {
      StopIsComplete(w, p, from, to, afterId);
      items, stop, oldestId, next := soFar, true, 0, p;
      return;
    }
    HistoryPositive(w);
    assert forall i :: 0 <= i < |page| ==> page[i] == w[PageStart(p) + i];
    ReversedPage(page, from, to, afterId);
    var beforeRange;
    items, oldestId, beforeRange := ScanPage(messages, from, to, afterId, soFar);
    PageCollected(soFar, EligibleEntries(messages, from, to, afterId), w, PageStart(p), p, from, to, afterId, limit);
    items := SortTruncate(items, limit, Id);
    ghost var k := OldestOrdinaryIsLeast(messages);
    stop := oldestId == 0 || beforeRange || |messages| < PAGE_LIMIT;
    next := p;
    if stop {
      StopIsComplete(w, p, from, to, afterId);
    } else {
      next := NextOffset(w, p, from, to, afterId);
    }
  }

  /** Before any page nothing is collected; later the offset is the ID of w[p] and w[p..] is collected. */
  ghost predicate Reading(h: seq<Entry>, seen: seq<Entry>, w: seq<Entry>, p: nat, offsetId: int, items: seq<Entry>,
                          from: Instant, to: Instant, afterId: int, limit: nat)
  {
    if offsetId == 0 then items == []
    else
      && offsetId > 0 && seen <= h && ValidHistory(seen) && w == Window(seen, 0, to.Floor, afterId)
      && ValidHistory(w) && Horizon(w) <= p < |w| && w[p].id == offsetId
      && Collected(items, w, p, from, to, afterId, limit)
  }

  lemma NothingRead(h: seq<Entry>, w: seq<Entry>, p: nat, from: Instant, to: Instant, afterId: int, limit: nat)
    ensures Reading(h, h, w, p, 0, [], from, to, afterId, limit)
  {
  }

  lemma ReadingGrows(h: seq<Entry>, h': seq<Entry>, seen: seq<Entry>, w: seq<Entry>, p: nat, offsetId: int,
                     items: seq<Entry>, from: Instant, to: Instant, afterId: int, limit: nat)
    requires h <= h' && Reading(h, seen, w, p, offsetId, items, from, to, afterId, limit)
    ensures Reading(h', seen, w, p, offsetId, items, from, to, afterId, limit)
  {
  }

  lemma NextTurn(h: seq<Entry>, seen: seq<Entry>, w: seq<Entry>, next: nat, items: seq<Entry>, from: Instant,
                 to: Instant, afterId: int, limit: nat)
    requires seen <= h && ValidHistory(seen) && ValidHistory(w) && w == Window(seen, 0, to.Floor, afterId)
    requires Horizon(w) <= next < |w| && Collected(items, w, next, from, to, afterId, limit)
    ensures w[next].id > 0 && Reading(h, seen, w, next, w[next].id, items, from, to, afterId, limit)
  {
    hide Collected;
    HistoryOrder(w, next, next);
  }

  lemma ReadDone(seen: seq<Entry>, w: seq<Entry>, items: seq<Entry>, from: Instant, to: Instant, afterId: int,
                 limit: nat)
    requires w == Window(seen, 0, to.Floor, afterId) && ValidHistory(w)
    requires multiset(items) == multiset(OldestEligible(w[Horizon(w)..], from, to, afterId, limit))
    ensures Take(SortBy(items, Id), limit) == ReadResult(seen, from, to, afterId, limit)
  {
    hide ValidHistory, Horizon, Window, SortBy, OldestEligible;
    FinalOrder(items, w, from, to, afterId, limit);
  }

  /** Whatever history the next page is served from, it is the page below p of the window first seen. */
  lemma NextPage(h: seq<Entry>, seen: seq<Entry>, w: seq<Entry>, p: nat, offsetId: int, items: seq<Entry>,
                 from: Instant, to: Instant, afterId: int, limit: nat)
    returns (seen': seq<Entry>, w': seq<Entry>, p': nat)
    requires ValidHistory(h) && Reading(h, seen, w, p, offsetId, items, from, to, afterId, limit)
    ensures seen' == (if offsetId == 0 then h else seen) && seen' <= h && ValidHistory(seen')
    ensures w' == Window(seen', 0, to.Floor, afterId) && ValidHistory(w')
    ensures Horizon(w') <= p' <= |w'| && Collected(items, w', p', from, to, afterId, limit)
    ensures offsetId != 0 ==> p' < |w'| && w'[p'].id == offsetId
    ensures Page(h, offsetId, to.Floor, afterId, PAGE_LIMIT) == Reverse(w'[PageStart(p')..p'])
  {
    seen', w', p' := seen, w, p;
    if offsetId == 0 {
      seen', w' := h, Window(h, 0, to.Floor, afterId);
      p' := |w'|;
      FilterValid(h, (e: Entry) => Visible(e, 0, to.Floor, afterId));
    } else {
      WindowBelow(seen, h, p, offsetId, to.Floor, afterId);
    }
    PageOfWindow(h, w', p', offsetId, to.Floor, afterId);
  }

  /** None of the requests from `first` to before `next` fails. */
  ghost predicate NoneFailed(fails: nat -> bool, first: nat, next: nat) {
    forall r :: first <= r < next ==> !fails(r)
  }

  lemma OneMoreRequest(fails: nat -> bool, first: nat, next: nat)
    requires first <= next
    ensures NoneFailed(fails, first, next + 1) <==> NoneFailed(fails, first, next) && !fails(next)
  {
  }

  lemma NoRequest(fails: nat -> bool, first: nat)
    ensures NoneFailed(fails, first, first)
  {
  }

  /**
   ReadRange. Ghost results: the history as the first page saw it, and the pages. It fails if and only if one of its
   requests does; in particular a page without entries is no failure. It asks for another page exactly after one after
   which there may be more.
   */
  method ReadRange(channel: Channel, from: Instant, to: Instant, afterId: int, limit: nat)
    returns (ok: bool, items: seq<Entry>, ghost seen: seq<Entry>, ghost pages: seq<seq<Entry>>)
    requires ValidHistory(channel.history)
    modifies channel
    ensures ValidHistory(channel.history) && old(channel.history) <= channel.history
    ensures ok ==> old(channel.history) <= seen <= channel.history && ValidHistory(seen)
    ensures ok ==> items == ReadResult(seen, from, to, afterId, limit)
    ensures ok <==> NoneFailed(channel.fails, old(channel.requests), channel.requests)
    ensures channel.requests == old(channel.requests) + |pages| + if ok then 0 else 1
    ensures forall k :: 0 <= k < |pages| ==> (GoesOn(pages[k], from) <==> !ok || k < |pages| - 1)
    ensures channel.requests > old(channel.requests)
  {
    hide GoesOn, NoneFailed, Reading, ValidHistory, Page, SortBy, Take, Horizon, Window, Collected, ReadResult;
    items, pages := [], [];
    seen := channel.history;
    ghost var w: seq<Entry> := [];
    ghost var p: nat := 0;
    var offsetId := 0;
    NoRequest(channel.fails, channel.requests);
    NothingRead(channel.history, w, p, from, to, afterId, limit);
    while true
      invariant ValidHistory(channel.history) && old(channel.history) <= seen && seen <= channel.history
      invariant Reading(channel.history, seen, w, p, offsetId, items, from, to, afterId, limit)
      invariant channel.requests == old(channel.requests) + |pages|
      invariant forall k :: 0 <= k < |pages| ==> GoesOn(pages[k], from)
      invariant NoneFailed(channel.fails, old(channel.requests), channel.requests)
      decreases offsetId == 0, offsetId
    {
      var messages;
      ghost var before := channel.history;
      ok, messages := channel.GetHistory(offsetId, to.Floor, afterId, PAGE_LIMIT);
      OneMoreRequest(channel.fails, old(channel.requests), channel.requests - 1);
      ReadingGrows(before, channel.history, seen, w, p, offsetId, items, from, to, afterId, limit);
      if !ok {
        return;
      }
      seen, w, p := NextPage(channel.history, seen, w, p, offsetId, items, from, to, afterId, limit);
      var stop, oldestId;
      ghost var next;
      items, stop, oldestId, next := HandlePage(messages, from, to, afterId, limit, items, w, p);
      pages := pages + [messages];
      if stop {
        break;
      }
      HistoryOrder(w, next, if offsetId == 0 then next else p);
      NextTurn(channel.history, seen, w, next, items, from, to, afterId, limit);
      p := next;
      offsetId := oldestId;
    }
    ReadDone(seen, w, items, from, to, afterId, limit);
    items := Take(SortBy(items, Id), limit);
  }

  /** What is returned are text messages of the range after `afterId`, dated before the second of its end. */
  lemma ReadMeaning(h: seq<Entry>, from: Instant, to: Instant, afterId: int, limit: nat, e: Entry)
    requires e in ReadResult(h, from, to, afterId, limit)
    ensures e in h && e.Message? && !e.blank && e.id > afterId && from <= e.date as real && e.date < to.Floor
  {
    var w := Window(h, 0, to.Floor, afterId);
    var above := EligibleEntries(w[Horizon(w)..], from, to, afterId);
    var k :| 0 <= k < |above| && above[k] == e;
    assert e in w[Horizon(w)..];
    assert e in w;
  }

  // ----- When the reader meets its documented form -----

  /** PAGE_LIMIT consecutive service entries in the requested window stand above an eligible message. */
  ghost predicate Hidden(h: seq<Entry>, from: Instant, to: Instant, afterId: int) {
    HiddenIn(Window(h, 0, to.Floor, afterId), from, to, afterId)
  }

  ghost predicate HiddenIn(w: seq<Entry>, from: Instant, to: Instant, afterId: int) {
    exists i: nat, j: nat :: j < i && ServiceRun(w, i) && Eligible(w[j], from, to, afterId)
  }

  /** Eligible entries dated in the second that `to` falls inside; the request only carries whole seconds. */
  function PartialSecond(h: seq<Entry>, from: Instant, to: Instant, afterId: int): seq<Entry> {
    Filter(h, (e: Entry) => Eligible(e, from, to, afterId) && e.date == to.Floor)
  }

  function FloorSecond(t: Instant): Instant {
    Second(t.Floor)
  }

  lemma WindowEligible(h: seq<Entry>, from: Instant, to: Instant, afterId: int)
    ensures EligibleEntries(Window(h, 0, to.Floor, afterId), from, to, afterId)
         == EligibleEntries(h, from, FloorSecond(to), afterId)
  {
    FilterFilter(h, (e: Entry) => Visible(e, 0, to.Floor, afterId), (e: Entry) => Eligible(e, from, to, afterId),
                 (e: Entry) => Eligible(e, from, FloorSecond(to), afterId));
  }

  lemma WholeOrPartial(e: Entry, from: Instant, to: Instant, afterId: int)
    ensures Eligible(e, from, FloorSecond(to), afterId) <==> Eligible(e, from, to, afterId) && e.date != to.Floor
    ensures Eligible(e, from, FloorSecond(to), afterId) ==> e.date < to.Floor
  {
  }

  lemma PartialSecondLast(h: seq<Entry>, from: Instant, to: Instant, afterId: int)
    requires ValidHistory(h)
    ensures EligibleEntries(h, from, to, afterId)
         == EligibleEntries(h, from, FloorSecond(to), afterId) + PartialSecond(h, from, to, afterId)
  {
    var whole := (e: Entry) => Eligible(e, from, FloorSecond(to), afterId);
    var partial := (e: Entry) => Eligible(e, from, to, afterId) && e.date == to.Floor;
    forall e ensures Eligible(e, from, to, afterId) <==> whole(e) || partial(e) {
      WholeOrPartial(e, from, to, afterId);
    }
    forall i, j | 0 <= i < j < |h| ensures !(partial(h[i]) && whole(h[j])) {
      HistoryOrder(h, i, j);
      WholeOrPartial(h[j], from, to, afterId);
    }
    forall e ensures !(whole(e) && partial(e)) {
      WholeOrPartial(e, from, to, afterId);
    }
    FilterSplit(h, (e: Entry) => Eligible(e, from, to, afterId), whole, partial);
  }

  /** An entry below the horizon comes before everything above it. */
  lemma HiddenChangesFirst(w: seq<Entry>, c: nat, j: nat, from: Instant, to: Instant, afterId: int)
    requires ValidHistory(w) && j < c <= |w| && Eligible(w[j], from, to, afterId)
    ensures var all, above := EligibleEntries(w, from, to, afterId), EligibleEntries(w[c..], from, to, afterId);
            all != [] && (above == [] || above[0] != all[0])
  {
    hide EligibleEntries, Filter, ValidHistory, Eligible;
    var below, above := EligibleEntries(w[..c], from, to, afterId), EligibleEntries(w[c..], from, to, afterId);
    assert EligibleEntries(w, from, to, afterId) == below + above by {
      assert w == w[..c] + w[c..];
      EligibleConcat(w[..c], w[c..], from, to, afterId);
    }
    SplitDistinct(w, c, j, from, to, afterId);
  }

  lemma SplitDistinct(w: seq<Entry>, c: nat, j: nat, from: Instant, to: Instant, afterId: int)
    requires ValidHistory(w) && j < c <= |w| && Eligible(w[j], from, to, afterId)
    ensures var below, above := EligibleEntries(w[..c], from, to, afterId), EligibleEntries(w[c..], from, to, afterId);
            below != [] && (above == [] || above[0] != below[0])
  {
    var below, above := EligibleEntries(w[..c], from, to, afterId), EligibleEntries(w[c..], from, to, afterId);
    assert w[..c][j] in w[..c];
    if above != [] {
      assert below[0] in w[..c] && above[0] in w[c..];
      var x :| 0 <= x < c && w[..c][x] == below[0];
      var y :| 0 <= y < |w| - c && w[c..][y] == above[0];
      HistoryOrder(w, x, c + y);
    }
  }

  lemma NothingHidden(w: seq<Entry>, from: Instant, to: Instant, afterId: int)
    requires !HiddenIn(w, from, to, afterId)
    ensures EligibleEntries(w[Horizon(w)..], from, to, afterId) == EligibleEntries(w, from, to, afterId)
  {
    var c := Horizon(w);
    if c > 0 {
      assert ServiceRun(w, c - PAGE_LIMIT);
      assert forall j: nat :: j < c - PAGE_LIMIT ==> !Eligible(w[j], from, to, afterId);
    }
    SkipIneligible(w, 0, c, from, to, afterId);
    assert w[0..] == w;
  }

  lemma SomethingHidden(w: seq<Entry>, from: Instant, to: Instant, afterId: int)
    requires ValidHistory(w) && HiddenIn(w, from, to, afterId)
    ensures var all, above :=
            EligibleEntries(w, from, to, afterId), EligibleEntries(w[Horizon(w)..], from, to, afterId);
            all != [] && (above == [] || above[0] != all[0])
  {
    var i: nat, j: nat :| j < i && ServiceRun(w, i) && Eligible(w[j], from, to, afterId);
    HiddenChangesFirst(w, Horizon(w), j, from, to, afterId);
  }

  /** Over whole seconds the reader and the simple form agree exactly when nothing is hidden. */
  lemma ReadWholeSeconds(h: seq<Entry>, from: Instant, to: Instant, afterId: int, limit: nat)
    requires ValidHistory(h)
    ensures !Hidden(h, from, to, afterId) ==>
              ReadResult(h, from, to, afterId, limit) == OldestEligible(h, from, FloorSecond(to), afterId, limit)
    ensures Hidden(h, from, to, afterId) && limit >= 1 ==>
              var all, read :=
                  EligibleEntries(h, from, FloorSecond(to), afterId), ReadResult(h, from, to, afterId, limit);
              all != [] && (read == [] || read[0] != all[0])
  {
    hide EligibleEntries, Filter, ValidHistory, Horizon, HiddenIn, Visible;
    WindowEligible(h, from, to, afterId);
    FilterValid(h, (e: Entry) => Visible(e, 0, to.Floor, afterId));
    var w := Window(h, 0, to.Floor, afterId);
    if HiddenIn(w, from, to, afterId) {
      SomethingHidden(w, from, to, afterId);
    } else {
      NothingHidden(w, from, to, afterId);
    }
  }

  /**
   ReadRange returns the oldest `limit` text messages of [from, to) after `afterId` if and only if no eligible
   message lies below PAGE_LIMIT consecutive service entries, and none is lost to the rounding of `to`.
   */
  lemma ReadMeetsDocumentation(h: seq<Entry>, from: Instant, to: Instant, afterId: int, limit: nat)
    requires ValidHistory(h) && limit >= 1
    ensures ReadResult(h, from, to, afterId, limit) == OldestEligible(h, from, to, afterId, limit)
      <==> && !Hidden(h, from, to, afterId)
           && (|| PartialSecond(h, from, to, afterId) == []
               || |EligibleEntries(h, from, FloorSecond(to), afterId)| >= limit)
  {
    ReadWholeSeconds(h, from, to, afterId, limit);
    PartialSecondLast(h, from, to, afterId);
    TakeSum(EligibleEntries(h, from, FloorSecond(to), afterId), PartialSecond(h, from, to, afterId), limit);
  }

  /** A message in the partial second before `to` is documented to be returned, and is not. */
  lemma RoundingLosesMessage()
    ensures var h := [Message(1, 10, false)];
            && ValidHistory(h) && !Hidden(h, 0.0, 10.5, 0)
            && OldestEligible(h, 0.0, 10.5, 0, 1) == h && ReadResult(h, 0.0, 10.5, 0, 1) == []
  {
    var h := [Message(1, 10, false)];
    assert ValidHistory(h[..0]);
    ReadMeetsDocumentation(h, 0.0, 10.5, 0, 1);
  }

  lemma TakeSum<T>(a: seq<T>, b: seq<T>, n: nat)
    requires n >= 1
    ensures Take(a, n) == Take(a + b, n) <==> b == [] || |a| >= n
    ensures a != [] ==> Take(a + b, n) != [] && Take(a + b, n)[0] == a[0]
  {
    if |a| >= n {
      assert (a + b)[..n] == a[..n];
    } else if b == [] {
      assert a + b == a;
    } else {
      assert |Take(a + b, n)| > |a|;
    }
  }
}
