/**
 Creating jobs: the sources of a manual job, the idempotency key, and what holds over any sequence of creation calls
 from any replicas. UUIDs are numbers; uuid.NewSHA1 and the time format are function parameters.
 */
module JobCreation {
  import opened Faults
  import opened Instants
  import opened Options
  import opened Sequences
  import opened Text
  import StringOrder
  import W = WebsiteUrl
  import Q = QueueStore

  type Key = nat

  datatype SourceInput = Channel(name: string) | Page(source: string, url: string)

  /** What one creation inserts. */
  datatype Request = Request(key: Key, trigger: Q.Trigger, requestedBy: Option<nat>, from: Option<Instant>,
                             to: Option<Instant>, limit: int, sources: seq<SourceInput>)

  datatype Input = Input(key: Key, channels: seq<string>, from: Option<Instant>, to: Option<Instant>,
                         urls: seq<string>, limit: int)

  // ----- Validation -----

  const NIL_KEY: Key := 0
  const MAX_URLS: int := 20
  const MAX_LIMIT: int := 500
  const MINUTE: real := 60.0
  const MAX_RANGE: real := 2678400.0

  function TrimAt(s: string): string {
    if "@" <= s then s[1..] else s
  }

  /** The channel as the allowlist knows it: without white space around it and without a leading "@". */
  function ChannelName(raw: string): string {
    TrimAt(TrimSpace(raw))
  }

  /** Apart from white space around it, a name with one "@" in front is the name itself. */
  lemma ChannelNameMeaning(raw: string, name: string)
    ensures TrimSpace(raw) == "@" + name ==> ChannelName(raw) == name
    ensures TrimSpace(raw) == name && (name == "" || name[0] != '@') ==> ChannelName(raw) == name
  {
    hide TrimSpace;
    assert ("@" + name)[1..] == name;
  }

  predicate ValidRange(from: Option<Instant>, to: Option<Instant>, now: Instant) {
    && from.Some? && to.Some? && Before(from.value, to.value) && AtMost(to.value, now + MINUTE)
    && AtMost(to.value - from.value, MAX_RANGE)
  }

  predicate AllAccepted(urls: seq<string>, normalize: string -> W.Target) {
    forall i :: 0 <= i < |urls| ==> normalize(urls[i]).Accepted?
  }

  predicate AllAllowed(channels: seq<string>, allowed: set<string>) {
    forall i :: 0 <= i < |channels| ==> ChannelName(channels[i]) in allowed
  }

  /** The input that ValidateCreateInput lets through. */
  predicate Valid(input: Input, allowed: set<string>, normalize: string -> W.Target, now: Instant) {
    && input.key != NIL_KEY && (input.channels != [] || input.urls != []) && |input.urls| <= MAX_URLS
    && 1 <= input.limit <= MAX_LIMIT
    && (input.channels != [] ==> ValidRange(input.from, input.to, now))
    && AllAllowed(input.channels, allowed)
    && AllAccepted(input.urls, normalize)
  }

  /** ValidateCreateInput */
  method Validate(input: Input, allowed: set<string>, normalize: string -> W.Target, now: Instant) returns (ok: bool)
    ensures ok == Valid(input, allowed, normalize, now)
    ensures ok <==>
            && input.key != NIL_KEY && (input.channels != [] || input.urls != [])
            && |input.urls| <= 20 && 1 <= input.limit <= 500
            && (input.channels != [] ==>
                  && input.from.Some? && input.to.Some? && input.from.value < input.to.value <= now + 60.0
                  && input.to.value - input.from.value <= 31.0 * 86400.0)
            && (forall i :: 0 <= i < |input.channels| ==> ChannelName(input.channels[i]) in allowed)
            && (forall i :: 0 <= i < |input.urls| ==> normalize(input.urls[i]).Accepted?)
  {
    hide ChannelName;
    if input.key == NIL_KEY || (|input.channels| == 0 && |input.urls| == 0) || |input.urls| > MAX_URLS {
      return false;
    }
    if input.limit < 1 || input.limit > MAX_LIMIT {
      return false;
    }
    if |input.channels| > 0 && !ValidRange(input.from, input.to, now) {
      return false;
    }
    for i := 0 to |input.channels|
      invariant forall k :: 0 <= k < i ==> ChannelName(input.channels[k]) in allowed
    {
      if ChannelName(input.channels[i]) !in allowed {
        return false;
      }
    }
    for i := 0 to |input.urls|
      invariant forall k :: 0 <= k < i ==> normalize(input.urls[k]).Accepted?
    {
      if normalize(input.urls[i]).Rejected? {
        return false;
      }
    }
    ok := true;
  }

  // ----- Sources of a manual job -----

  /** A canonical URL determines its page. */
  ghost predicate OnePagePerUrl(normalize: string -> W.Target) {
    forall a, b :: normalize(a).Accepted? && normalize(b).Accepted? && normalize(a).url == normalize(b).url ==>
      normalize(a) == normalize(b)
  }

  lemma CanonicalUrlIsPage()
    ensures OnePagePerUrl(W.Normalize)
  {
    forall a, b | W.Normalize(a).Accepted? && W.Normalize(b).Accepted? && W.Normalize(a).url == W.Normalize(b).url
      ensures W.Normalize(a) == W.Normalize(b)
    {
      W.NormalizeIsRetraction(a);
      W.NormalizeIsRetraction(b);
    }
  }

  function Pages(urls: seq<string>, normalize: string -> W.Target): (r: seq<W.Target>)
    ensures |r| == |urls|
    ensures forall i :: 0 <= i < |urls| ==> r[i] == normalize(urls[i])
  {
    seq(|urls|, i requires 0 <= i < |urls| => normalize(urls[i]))
  }

  function SourceOf(page: W.Target): SourceInput {
    if page.Accepted? then Page(page.source, page.url) else Page("", "")
  }

  function PageSources(pages: seq<W.Target>): (r: seq<SourceInput>)
    ensures |r| == |pages|
    ensures forall i :: 0 <= i < |pages| ==> r[i] == SourceOf(pages[i])
  {
    seq(|pages|, i requires 0 <= i < |pages| => SourceOf(pages[i]))
  }

  function Channels(names: seq<string>): (r: seq<SourceInput>)
    ensures |r| == |names|
    ensures forall i :: 0 <= i < |names| ==> r[i] == Channel(names[i])
  {
    seq(|names|, i requires 0 <= i < |names| => Channel(names[i]))
  }

  /** Channels as given, then the pages of the URLs in the order of their first occurrence. */
  function ManualSources(input: Input, normalize: string -> W.Target): seq<SourceInput>
    requires AllAccepted(input.urls, normalize)
  {
    Channels(input.channels) + PageSources(Firsts(Pages(input.urls, normalize)))
  }

  /** One website URL of the loop: it was seen before exactly when its page is among the first occurrences. */
  lemma SeenIffFirst(urls: seq<string>, i: nat, seen: set<string>, normalize: string -> W.Target)
    requires i < |urls| && AllAccepted(urls[..i + 1], normalize) && OnePagePerUrl(normalize)
    requires forall u :: u in seen <==>
             exists k :: 0 <= k < i && normalize(urls[k]).Accepted? && normalize(urls[k]).url == u
    ensures normalize(urls[i]).Accepted?
    ensures normalize(urls[i]).url in seen <==> normalize(urls[i]) in Firsts(Pages(urls[..i], normalize))
  {
    var pages, target := Pages(urls[..i], normalize), normalize(urls[i]);
    assert urls[..i + 1][i] == urls[i];
    if target.url in seen {
      var k :| 0 <= k < i && normalize(urls[k]).Accepted? && normalize(urls[k]).url == target.url;
      assert pages[k] == normalize(urls[k]) == target;
    }
    if target in pages {
      var k :| 0 <= k < i && pages[k] == target;
      assert normalize(urls[k]) == target;
    }
  }

  lemma PagesSnoc(urls: seq<string>, i: nat, normalize: string -> W.Target)
    requires i < |urls|
    ensures Pages(urls[..i + 1], normalize) == Pages(urls[..i], normalize) + [normalize(urls[i])]
    ensures Pages(urls[..i + 1], normalize)[..i] == Pages(urls[..i], normalize)
  {
  }

  lemma AcceptedPages(urls: seq<string>, normalize: string -> W.Target)
    requires AllAccepted(urls, normalize)
    ensures forall p :: p in Firsts(Pages(urls, normalize)) ==> p.Accepted?
  {
    forall p | p in Firsts(Pages(urls, normalize)) ensures p.Accepted? {
      var k :| 0 <= k < |urls| && Pages(urls, normalize)[k] == p;
      assert normalize(urls[k]).Accepted?;
    }
  }

  /** The pages of the first i URLs at their first occurrence, and the URLs of those pages. */
  ghost predicate Collected(urls: seq<string>, i: nat, normalize: string -> W.Target, pages: seq<W.Target>,
                            seen: set<string>)
  {
    && i <= |urls| && AllAccepted(urls[..i], normalize) && pages == Firsts(Pages(urls[..i], normalize))
    && forall u :: u in seen <==>
         exists k :: 0 <= k < i && normalize(urls[k]).Accepted? && normalize(urls[k]).url == u
  }

  lemma CollectedNone(urls: seq<string>, normalize: string -> W.Target)
    ensures Collected(urls, 0, normalize, [], {})
  {
  }

  lemma CollectedNext(urls: seq<string>, i: nat, normalize: string -> W.Target, pages: seq<W.Target>,
                      seen: set<string>)
    requires OnePagePerUrl(normalize) && i < |urls| && Collected(urls, i, normalize, pages, seen)
    requires normalize(urls[i]).Accepted?
    ensures var target := normalize(urls[i]);
            if target.url in seen then Collected(urls, i + 1, normalize, pages, seen)
            else Collected(urls, i + 1, normalize, pages + [target], seen + {target.url})
  {
    hide OnePagePerUrl;
    assert forall k :: 0 <= k < i ==> urls[..i][k] == urls[k];
    SeenIffFirst(urls, i, seen, normalize);
    PagesSnoc(urls, i, normalize);
  }

  lemma CollectedAll(urls: seq<string>, normalize: string -> W.Target, pages: seq<W.Target>, seen: set<string>)
    requires Collected(urls, |urls|, normalize, pages, seen)
    ensures AllAccepted(urls, normalize) && pages == Firsts(Pages(urls, normalize))
  {
    assert urls[..|urls|] == urls;
  }

  lemma RejectedAt(urls: seq<string>, i: nat, normalize: string -> W.Target)
    requires i < |urls| && normalize(urls[i]).Rejected?
    ensures !AllAccepted(urls, normalize)
  {
  }

  /** The loop over the website URLs: normalise, skip what was seen, append; it fails at the first rejected URL. */
  method CollectPages(urls: seq<string>, normalize: string -> W.Target) returns (ok: bool, pages: seq<W.Target>)
    requires OnePagePerUrl(normalize)
    ensures ok == AllAccepted(urls, normalize)
    ensures ok ==> pages == Firsts(Pages(urls, normalize))
  {
    hide OnePagePerUrl, AllAccepted, Collected;
    pages := [];
    var seen: set<string> := {};
    CollectedNone(urls, normalize);
    for i := 0 to |urls|
      invariant Collected(urls, i, normalize, pages, seen)
    {
      var target := normalize(urls[i]);
      if target.Rejected? {
        RejectedAt(urls, i, normalize);
        return false, pages;
      }
      CollectedNext(urls, i, normalize, pages, seen);
      if target.url !in seen {
        seen := seen + {target.url};
        pages := pages + [target];
      }
    }
    CollectedAll(urls, normalize, pages, seen);
    ok := true;
  }

  lemma DistinctSources(names: seq<string>, pages: seq<W.Target>)
    requires Distinct(pages) && forall p :: p in pages ==> p.Accepted?
    ensures Distinct(Channels(names) + PageSources(pages)) <==> Distinct(names)
  {
    var s, n := Channels(names) + PageSources(pages), |names|;
    if Distinct(s) {
      forall i, j | 0 <= i < j < n ensures names[i] != names[j] {
        assert s[i] == Channel(names[i]) && s[j] == Channel(names[j]);
      }
    }
    if Distinct(names) {
      forall i, j | 0 <= i < j < |s| ensures s[i] != s[j] {
        if n <= i {
          assert pages[i - n] != pages[j - n];
        }
      }
    }
  }

  /**
   The sources of a valid manual input: at least one; the website sources are the canonical pages of its URLs, each
   once, in the order of first occurrence; and no two sources of the job are equal if and only if no channel is named
   twice.
   */
  lemma ManualSourcesWellFormed(input: Input, allowed: set<string>, normalize: string -> W.Target, now: Instant)
    requires Valid(input, allowed, normalize, now)
    ensures ManualSources(input, normalize) != []
    ensures var all := Pages(input.urls, normalize);
            var pages := Firsts(all);
            && ManualSources(input, normalize) == Channels(input.channels) + PageSources(pages)
            && (forall i :: 0 <= i < |input.channels| ==> Channels(input.channels)[i] == Channel(input.channels[i]))
            && (forall i :: 0 <= i < |pages| ==>
                  pages[i].Accepted? && PageSources(pages)[i] == Page(pages[i].source, pages[i].url))
            && (forall p :: p in pages <==> p in all) && Distinct(pages)
            && (forall x, y :: 0 <= x < y < |pages| ==> FirstIndex(all, pages[x]) < FirstIndex(all, pages[y]))
    ensures Distinct(ManualSources(input, normalize)) <==> Distinct(input.channels)
  {
    hide ChannelName, ValidRange;
    var all := Pages(input.urls, normalize);
    var pages := Firsts(all);
    FirstsDistinct(all);
    AcceptedPages(input.urls, normalize);
    DistinctSources(input.channels, pages);
    forall x, y | 0 <= x < y < |pages| ensures FirstIndex(all, pages[x]) < FirstIndex(all, pages[y]) {
      FirstsInOrder(all, x, y);
    }
    if input.channels == [] {
      assert all[0] in pages;
    }
  }

  // ----- Creation calls -----

  datatype Call =
    | CreateManual(actor: nat, input: Input)
    | CreateScheduled(trigger: Q.Trigger, key: Key, channels: seq<string>, from: Instant, to: Instant, limit: int)

  datatype Record = Record(request: Request, status: Q.JobStatus)

  datatype Reply = Failed | Returned(id: nat, record: Record)

  type Table = map<nat, Record>

  /** What a call tries to insert; a manual call fails first if one of its URLs is rejected. */
  function RequestOf(call: Call, normalize: string -> W.Target): Option<Request> {
    match call
    case CreateManual(actor, x) =>
      if AllAccepted(x.urls, normalize)
      then Some(Request(x.key, Q.Manual, Some(actor), x.from, x.to, x.limit, ManualSources(x, normalize)))
      else None
    case CreateScheduled(trigger, key, channels, from, to, limit) =>
      Some(Request(key, trigger, None, Some(from), Some(to), limit, Channels(channels)))
  }

  ghost predicate KeyUsed(t: Table, key: Key) {
    exists id :: id in t && t[id].request.key == key
  }

  /** The table's check and uniqueness constraints for one insertion. */
  ghost predicate Insertable(req: Request) {
    1 <= req.limit <= MAX_LIMIT && Distinct(req.sources)
  }

  ghost predicate Inserted(t: Table, t': Table, id: nat, req: Request) {
    id !in t && t' == t[id := Record(req, Q.JobQueued)]
  }

  /**
   The transaction `create` and the read after it. A used key returns its job; any other constraint violation, and any
   failure of the database, is an error, after which the job may have been committed only if it could be.
   */
  ghost predicate Creates(t: Table, req: Request, t': Table, reply: Reply) {
    match reply
    case Failed => t' == t || (!KeyUsed(t, req.key) && Insertable(req) && exists id :: Inserted(t, t', id, req))
    case Returned(id, record) =>
      && id in t' && t'[id] == record
      && if KeyUsed(t, req.key) then 1 <= req.limit <= MAX_LIMIT && t' == t && record.request.key == req.key
         else Insertable(req) && Inserted(t, t', id, req)
  }

  /** One step of a run: a call, or progress of a job. */
  datatype Event = Called(call: Call, reply: Reply) | Progressed(id: nat, status: Q.JobStatus)

  ghost predicate Step(t: Table, e: Event, t': Table, normalize: string -> W.Target) {
    match e
    case Called(call, reply) =>
      var req := RequestOf(call, normalize);
      if req.None? then t' == t && reply.Failed? else Creates(t, req.value, t', reply)
    case Progressed(id, status) => t' == if id in t then t[id := t[id].(status := status)] else t
  }

  ghost predicate StepAt(b: seq<Table>, events: seq<Event>, i: nat, normalize: string -> W.Target)
    requires i < |events| && |b| == |events| + 1
  {
    Step(b[i], events[i], b[i + 1], normalize)
  }

  /** Tables after each of the events, from an empty table. */
  ghost predicate Run(b: seq<Table>, events: seq<Event>, normalize: string -> W.Target) {
    |b| == |events| + 1 && b[0] == map[] && forall i :: 0 <= i < |events| ==> StepAt(b, events, i, normalize)
  }

  ghost predicate KeysUnique(t: Table) {
    forall a, b :: a in t && b in t && t[a].request.key == t[b].request.key ==> a == b
  }

  /** Every job stays, with what its creation inserted. */
  ghost predicate Kept(t: Table, t': Table) {
    forall id :: id in t ==> id in t' && t'[id].request == t[id].request
  }

  lemma StepKeeps(t: Table, e: Event, t': Table, normalize: string -> W.Target)
    requires Step(t, e, t', normalize)
    ensures Kept(t, t')
    ensures KeysUnique(t) ==> KeysUnique(t')
  {
  }

  lemma {:induction false} KeysUniqueAlong(b: seq<Table>, events: seq<Event>, normalize: string -> W.Target, n: nat)
    requires Run(b, events, normalize) && n <= |events|
    ensures KeysUnique(b[n])
  {
    if n > 0 {
      KeysUniqueAlong(b, events, normalize, n - 1);
      assert StepAt(b, events, n - 1, normalize);
      StepKeeps(b[n - 1], events[n - 1], b[n], normalize);
    }
  }

  lemma {:induction false} KeptAlong(b: seq<Table>, events: seq<Event>, normalize: string -> W.Target, k: nat, n: nat)
    requires Run(b, events, normalize) && k <= n <= |events|
    ensures Kept(b[k], b[n])
  {
    if k < n {
      KeptAlong(b, events, normalize, k, n - 1);
      assert StepAt(b, events, n - 1, normalize);
      StepKeeps(b[n - 1], events[n - 1], b[n], normalize);
    }
  }

  /** Call k committed the job: the first call with its key whose insertion went through. */
  ghost predicate CommittedBy(b: seq<Table>, events: seq<Event>, normalize: string -> W.Target, id: nat, k: nat,
                              req: Request)
    requires |b| == |events| + 1 && k < |events|
  {
    && events[k].Called? && RequestOf(events[k].call, normalize) == Some(req)
    && id !in b[k] && id in b[k + 1]
    && forall m :: 0 <= m <= k ==> !KeyUsed(b[m], req.key)
  }

  lemma NewRow(t: Table, e: Event, t': Table, normalize: string -> W.Target, id: nat)
    requires Step(t, e, t', normalize) && id in t' && id !in t
    ensures e.Called? && RequestOf(e.call, normalize) == Some(t'[id].request) && !KeyUsed(t, t'[id].request.key)
  {
  }

  lemma UnusedBefore(b: seq<Table>, events: seq<Event>, normalize: string -> W.Target, m: nat, k: nat, key: Key)
    requires Run(b, events, normalize) && m <= k <= |events| && !KeyUsed(b[k], key)
    ensures !KeyUsed(b[m], key)
  {
    KeptAlong(b, events, normalize, m, k);
  }

  /**
   Every job goes back to the first committed call with its key, and still has the parameters and sources of that call.
   */
  lemma {:induction false} JobIsFirstCommitted(b: seq<Table>, events: seq<Event>, normalize: string -> W.Target, n: nat,
                                               id: nat)
    returns (k: nat)
    requires Run(b, events, normalize) && n <= |events| && id in b[n]
    ensures k < n && CommittedBy(b, events, normalize, id, k, b[n][id].request)
  {
    k := n - 1;
    assert StepAt(b, events, n - 1, normalize);
    if id in b[n - 1] {
      StepKeeps(b[n - 1], events[n - 1], b[n], normalize);
      k := JobIsFirstCommitted(b, events, normalize, n - 1, id);
    } else {
      NewRow(b[n - 1], events[n - 1], b[n], normalize, id);
      forall m | 0 <= m <= k ensures !KeyUsed(b[m], b[n][id].request.key) {
        UnusedBefore(b, events, normalize, m, k, b[n][id].request.key);
      }
    }
  }

  lemma ReturnedRow(t: Table, e: Event, t': Table, normalize: string -> W.Target, req: Request)
    requires Step(t, e, t', normalize) && e.Called? && e.reply.Returned? && RequestOf(e.call, normalize) == Some(req)
    ensures e.reply.id in t' && t'[e.reply.id] == e.reply.record && e.reply.record.request.key == req.key
  {
  }

  /**
   Idempotent creation over whole runs: a key has at most one job, whatever replicas call when; the job has the
   parameters and sources of the first committed call with that key; and every call with the key that returns, returns
   that job.
   */
  lemma OneJobPerKey(b: seq<Table>, events: seq<Event>, normalize: string -> W.Target, i: nat, req: Request)
    returns (k: nat)
    requires Run(b, events, normalize) && i < |events|
    requires events[i].Called? && events[i].reply.Returned? && RequestOf(events[i].call, normalize) == Some(req)
    ensures k <= i && events[k].Called?
    ensures var first := RequestOf(events[k].call, normalize);
            && first.Some? && first.value.key == req.key && events[i].reply.record.request == first.value
            && CommittedBy(b, events, normalize, events[i].reply.id, k, first.value)
            && forall n, id :: i < n <= |events| && id in b[n] && b[n][id].request.key == req.key ==>
                 id == events[i].reply.id && b[n][id].request == first.value
  {
    var reply := events[i].reply;
    assert StepAt(b, events, i, normalize);
    ReturnedRow(b[i], events[i], b[i + 1], normalize, req);
    k := JobIsFirstCommitted(b, events, normalize, i + 1, reply.id);
    forall n, id | i < n <= |events| && id in b[n] && b[n][id].request.key == req.key
      ensures id == reply.id && b[n][id].request == reply.record.request
    {
      KeptAlong(b, events, normalize, i + 1, n);
      KeysUniqueAlong(b, events, normalize, n);
    }
  }

  // ----- The table and the scheduler -----

  /** The constraints let the insertion through, or the key is used already. */
  ghost predicate Creatable(t: Table, req: Request, newId: nat) {
    1 <= req.limit <= MAX_LIMIT && (KeyUsed(t, req.key) || (newId !in t && Distinct(req.sources)))
  }

  /**
   What came of one creation. The transaction is the first statement and the read after it the second. The job is
   inserted unless the transaction is refused, the key is used or a constraint is violated; and a job is returned if and
   only if both statements were served and no constraint was violated.
   */
  ghost predicate Creation(t: Table, req: Request, newId: nat, outcomes: nat -> Outcome, first: nat, next: nat,
                           t': Table, reply: Reply)
  {
    && t' == (if outcomes(first) != Refused && Creatable(t, req, newId) && !KeyUsed(t, req.key)
              then t[newId := Record(req, Q.JobQueued)] else t)
    && (reply.Returned? <==> AllServed(outcomes, first, first + 2) && Creatable(t, req, newId))
    && (reply.Returned? ==>
          reply.id in t' && t'[reply.id] == reply.record && reply.record.request.key == req.key && next == first + 2)
    && first < next <= first + 2
  }

  /** One creation is a step of the runs above. */
  lemma CreationCreates(t: Table, req: Request, newId: nat, outcomes: nat -> Outcome, first: nat, next: nat, t': Table,
                        reply: Reply)
    requires Creation(t, req, newId, outcomes, first, next, t', reply)
    ensures Creates(t, req, t', reply)
  {
    hide AllServed, Distinct;
    if outcomes(first) != Refused && Creatable(t, req, newId) && !KeyUsed(t, req.key) {
      assert Inserted(t, t', newId, req);
    }
  }

  /** The table of jobs, and the outcomes of the statements on it. */
  class JobTable {
    const outcomes: nat -> Outcome
    var rows: Table
    var calls: nat

    constructor (outcomes: nat -> Outcome)
      ensures rows == map[] && calls == 0 && this.outcomes == outcomes
    {
      rows, calls := map[], 0;
      this.outcomes := outcomes;
    }

    /** The next statement. */
    method Issue() returns (outcome: Outcome)
      modifies this`calls
      ensures outcome == outcomes(old(calls)) && calls == old(calls) + 1
    {
      outcome := outcomes(calls);
      calls := calls + 1;
    }

    /** The row with this key. */
    method Find(key: Key) returns (found: Option<nat>)
      ensures found.None? <==> !KeyUsed(rows, key)
      ensures found.Some? ==> found.value in rows && rows[found.value].request.key == key
    {
      var rest := rows.Keys;
      while rest != {}
        invariant rest <= rows.Keys && forall id :: id in rows && id !in rest ==> rows[id].request.key != key
        decreases rest
      {
        var id :| id in rest;
        if rows[id].request.key == key {
          return Some(id);
        }
        rest := rest - {id};
      }
      found := None;
    }

    /** The transaction `create`: a key that is used, or an ID, is reported as not created rather than as an error. */
    method Insert(req: Request, newId: nat) returns (ok: bool, created: bool)
      modifies this
      ensures calls == old(calls) + 1
      ensures rows == if outcomes(old(calls)) != Refused && Creatable(old(rows), req, newId) &&
                         !KeyUsed(old(rows), req.key)
                      then old(rows)[newId := Record(req, Q.JobQueued)] else old(rows)
      ensures var taken := KeyUsed(old(rows), req.key) || newId in old(rows);
              && (ok <==> outcomes(old(calls)) == Served && 1 <= req.limit <= MAX_LIMIT &&
                          (taken || Distinct(req.sources)))
              && (ok ==> created == !taken)
    {
      ok, created := false, false;
      var outcome := Issue();
      if outcome == Refused || req.limit < 1 || req.limit > MAX_LIMIT {
        return;
      }
      var existing := Find(req.key);
      if existing.Some? || newId in rows {
        ok := outcome == Served;
        return;
      }
      if !Distinct(req.sources) {
        return;
      }
      rows := rows[newId := Record(req, Q.JobQueued)];
      ok, created := outcome == Served, true;
    }

    /** create, and Get or GetByIdempotency after it; newId is the fresh UUID. */
    method Create(req: Request, newId: nat) returns (reply: Reply)
      modifies this
      ensures Creation(old(rows), req, newId, outcomes, old(calls), calls, rows, reply)
    {
      hide Distinct;
      var ok, created := Insert(req, newId);
      if !ok {
        return Failed;
      }
      var outcome := Issue();
      if outcome != Served {
        return Failed;
      }
      if created {
        return Returned(newId, rows[newId]);
      }
      var existing := Find(req.key);
      reply := if existing.Some? then Returned(existing.value, rows[existing.value]) else Failed;
    }

    /** RequeueFailed, as far as the status goes. */
    method Requeue(id: nat) returns (ok: bool)
      modifies this
      ensures calls == old(calls) + 1
      ensures ok <==> id in old(rows) && old(rows)[id].status == Q.JobFailed && outcomes(old(calls)) == Served
      ensures rows == if outcomes(old(calls)) != Refused && id in old(rows) && old(rows)[id].status == Q.JobFailed
                      then old(rows)[id := old(rows)[id].(status := Q.JobQueued)] else old(rows)
    {
      var outcome := Issue();
      var failed := id in rows && rows[id].status == Q.JobFailed;
      if failed && outcome != Refused {
        rows := rows[id := rows[id].(status := Q.JobQueued)];
      }
      ok := failed && outcome == Served;
    }
  }

  /** CreateManual: the sources first, then the transaction; a rejected URL fails the call before any statement. */
  method SubmitManual(table: JobTable, actor: nat, input: Input, newId: nat) returns (reply: Reply)
    modifies table
    ensures Step(old(table.rows), Called(CreateManual(actor, input), reply), table.rows, W.Normalize)
    ensures if AllAccepted(input.urls, W.Normalize)
            then Creation(old(table.rows),
                          Request(input.key, Q.Manual, Some(actor), input.from, input.to, input.limit,
                                  Channels(input.channels) + PageSources(Firsts(Pages(input.urls, W.Normalize)))),
                          newId, table.outcomes, old(table.calls), table.calls, table.rows, reply)
            else reply == Failed && table.rows == old(table.rows) && table.calls == old(table.calls)
  {
    hide W.Normalize, Pages, Channels, PageSources, Distinct, Creates, Creation;
    CanonicalUrlIsPage();
    var sources: seq<SourceInput> := [];
    for i := 0 to |input.channels|
      invariant sources == Channels(input.channels)[..i]
    {
      sources := sources + [Channel(input.channels[i])];
    }
    var ok, pages := CollectPages(input.urls, W.Normalize);
    if !ok {
      return Failed;
    }
    sources := sources + PageSources(pages);
    assert sources == ManualSources(input, W.Normalize);
    var req := Request(input.key, Q.Manual, Some(actor), input.from, input.to, input.limit, sources);
    reply := table.Create(req, newId);
    CreationCreates(old(table.rows), req, newId, table.outcomes, old(table.calls), table.calls, table.rows, reply);
  }

  const SCHEDULED_PREFIX: string := "task-hunter/scheduled/"
  const BOOTSTRAP_PREFIX: string := "task-hunter/bootstrap/"

  /** The minute of a time in Unix seconds. */
  function Slot(now: int): int {
    now / 60
  }

  /** The minute has begun, and the next one has not. */
  lemma SlotMeaning(now: int)
    ensures 60 * Slot(now) <= now < 60 * Slot(now) + 60
    ensures forall minute: int :: 60 * minute <= now < 60 * minute + 60 ==> minute == Slot(now)
  {
  }

  function ScheduledKey(slot: int, sha1: string -> Key, format: int -> string): Key {
    sha1(SCHEDULED_PREFIX + format(slot))
  }

  function BootstrapKey(missing: seq<string>, sha1: string -> Key): Key {
    sha1(BOOTSTRAP_PREFIX + Join(StringOrder.SortStrings(missing), ","))
  }

  function ScheduledCall(now: int, channels: seq<string>, limit: int, sha1: string -> Key,
                         format: int -> string): Call {
    var to := Second(60 * Slot(now));
    CreateScheduled(Q.Scheduled, ScheduledKey(Slot(now), sha1, format), channels, to - MAX_RANGE, to, limit)
  }

  /** enqueueScheduled: the 31 days up to the minute of the tick. */
  method EnqueueScheduled(table: JobTable, now: int, channels: seq<string>, limit: int, sha1: string -> Key,
                          format: int -> string, newId: nat) returns (reply: Reply)
    modifies table
    ensures Step(old(table.rows), Called(ScheduledCall(now, channels, limit, sha1, format), reply), table.rows,
                 W.Normalize)
    ensures Creation(old(table.rows),
                     Request(sha1("task-hunter/scheduled/" + format(Slot(now))), Q.Scheduled, None,
                             Some(60.0 * Slot(now) as real - 31.0 * 86400.0), Some(60.0 * Slot(now) as real), limit,
                             Channels(channels)),
                     newId, table.outcomes, old(table.calls), table.calls, table.rows, reply)
  {
    hide Creates, Creation;
    var to := Second(60 * Slot(now));
    var key := ScheduledKey(Slot(now), sha1, format);
    var req := Request(key, Q.Scheduled, None, Some(to - MAX_RANGE), Some(to), limit, Channels(channels));
    reply := table.Create(req, newId);
    CreationCreates(old(table.rows), req, newId, table.outcomes, old(table.calls), table.calls, table.rows, reply);
  }

  /** What GetCheckpoint answers for a channel. */
  datatype Lookup = Unreadable | NoRow | Row

  predicate Readable(channels: seq<string>, lookup: string -> Lookup) {
    forall i :: 0 <= i < |channels| ==> !lookup(channels[i]).Unreadable?
  }

  /** The channels without a checkpoint. */
  function Missing(channels: seq<string>, lookup: string -> Lookup): seq<string> {
    if channels == [] then []
    else
      var init, last := Missing(channels[..|channels| - 1], lookup), channels[|channels| - 1];
      if lookup(last).NoRow? then init + [last] else init
  }

  /** Each channel is missing as often as it is named and has no checkpoint. */
  lemma {:induction false} MissingMeaning(channels: seq<string>, lookup: string -> Lookup, name: string)
    ensures multiset(Missing(channels, lookup))[name] == if lookup(name).NoRow? then multiset(channels)[name] else 0
  {
    if channels != [] {
      MissingMeaning(channels[..|channels| - 1], lookup, name);
      assert channels == channels[..|channels| - 1] + [channels[|channels| - 1]];
    }
  }

  function BootstrapCall(missing: seq<string>, from: Instant, to: Instant, limit: int, sha1: string -> Key): Call {
    CreateScheduled(Q.Bootstrap, BootstrapKey(missing, sha1), StringOrder.SortStrings(missing), from, to, limit)
  }

  /** The loop over the channels; it stops at the first checkpoint that cannot be read. */
  method CollectMissing(channels: seq<string>, lookup: string -> Lookup) returns (ok: bool, missing: seq<string>)
    ensures ok == Readable(channels, lookup)
    ensures ok ==> missing == Missing(channels, lookup)
  {
    ok, missing := true, [];
    for i := 0 to |channels|
      invariant missing == Missing(channels[..i], lookup)
      invariant forall k :: 0 <= k < i ==> !lookup(channels[k]).Unreadable?
    {
      assert channels[..i + 1][..i] == channels[..i];
      if lookup(channels[i]).Unreadable? {
        return false, missing;
      }
      if lookup(channels[i]).NoRow? {
        missing := missing + [channels[i]];
      }
    }
    assert channels[..|channels|] == channels;
  }

  datatype BootstrapError = CheckpointUnreadable | NotCreated | NotRequeued

  /** The range of a bootstrap job ends now. */
  function BootstrapRequest(missing: seq<string>, now: Instant, bootstrap: real, limit: int,
                            sha1: string -> Key): Request
  {
    var sorted := StringOrder.SortStrings(missing);
    Request(sha1("task-hunter/bootstrap/" + Join(sorted, ",")), Q.Bootstrap, None, Some(now - bootstrap), Some(now),
            limit, Channels(sorted))
  }

  /**
   enqueueBootstrap: one creation call for the channels without a checkpoint, and a requeue if the job it returns has
   failed. A failed job is queued afterwards, or the error of the requeue is reported. Without such channels, or when a
   checkpoint cannot be read, nothing happens.
   */
  method EnqueueBootstrap(table: JobTable, channels: seq<string>, lookup: string -> Lookup, now: Instant,
                          bootstrap: real, limit: int, sha1: string -> Key, newId: nat)
    returns (error: Option<BootstrapError>, ghost reply: Reply, ghost created: Table)
    modifies table
    ensures error == Some(CheckpointUnreadable) <==> !Readable(channels, lookup)
    ensures error == Some(NotCreated) <==>
            && Readable(channels, lookup) && Missing(channels, lookup) != []
            && !(AllServed(table.outcomes, old(table.calls), old(table.calls) + 2) &&
                 Creatable(old(table.rows), BootstrapRequest(Missing(channels, lookup), now, bootstrap, limit, sha1),
                           newId))
    ensures error == Some(NotRequeued) <==>
            reply.Returned? && reply.record.status == Q.JobFailed && table.outcomes(old(table.calls) + 2) != Served
    ensures if !Readable(channels, lookup) || Missing(channels, lookup) == [] then
              reply == Failed && created == old(table.rows) && table.calls == old(table.calls)
            else
              var missing := Missing(channels, lookup);
              && Step(old(table.rows), Called(BootstrapCall(missing, now - bootstrap, now, limit, sha1), reply),
                      created, W.Normalize)
              && exists next :: Creation(old(table.rows), BootstrapRequest(missing, now, bootstrap, limit, sha1), newId,
                                         table.outcomes, old(table.calls), next, created, reply)
    ensures reply.Returned? && reply.record.status == Q.JobFailed && error.None? ==>
              reply.id in table.rows && table.rows[reply.id].status == Q.JobQueued
    ensures table.rows == if reply.Returned? && reply.record.status == Q.JobFailed && reply.id in created &&
                             table.outcomes(old(table.calls) + 2) != Refused
                          then created[reply.id := reply.record.(status := Q.JobQueued)] else created
  {
    hide AllServed, Creatable, Creates, Readable, Missing, Step, BootstrapCall;
    error, reply, created := None, Failed, table.rows;
    var ok, missing := CollectMissing(channels, lookup);
    if !ok {
      return Some(CheckpointUnreadable), reply, created;
    }
    if |missing| == 0 {
      return;
    }
    var sorted := StringOrder.SortStrings(missing);
    var key := sha1(BOOTSTRAP_PREFIX + Join(sorted, ","));
    var req := Request(key, Q.Bootstrap, None, Some(now - bootstrap), Some(now), limit, Channels(sorted));
    var answer := table.Create(req, newId);
    reply, created := answer, table.rows;
    CreationCreates(old(table.rows), req, newId, table.outcomes, old(table.calls), table.calls, created, reply);
    IsBootstrapCall(old(table.rows), created, missing, now, bootstrap, limit, sha1, reply);
    if answer.Failed? {
      return Some(NotCreated), reply, created;
    }
    if answer.record.status == Q.JobFailed {
      var requeued := table.Requeue(answer.id);
      if !requeued {
        error := Some(NotRequeued);
      }
    }
  }

  lemma IsBootstrapCall(t: Table, t': Table, missing: seq<string>, now: Instant, bootstrap: real, limit: int,
                        sha1: string -> Key, reply: Reply)
    requires Creates(t, BootstrapRequest(missing, now, bootstrap, limit, sha1), t', reply)
    ensures Step(t, Called(BootstrapCall(missing, now - bootstrap, now, limit, sha1), reply), t', W.Normalize)
  {
    hide Creates, W.Normalize;
  }

  // ----- Keys -----

  ghost predicate Injective<A(!new), B(!new)>(f: A -> B) {
    forall x, y :: f(x) == f(y) ==> x == y
  }

  lemma SamePrefix(prefix: string, a: string, b: string)
    requires prefix + a == prefix + b
    ensures a == b
  {
    assert (prefix + a)[|prefix|..] == a && (prefix + b)[|prefix|..] == b;
  }

  /** One key, and so one job, per minute: two ticks share the key if and only if they fall into the same minute. */
  lemma ScheduledKeyPerMinute(now: int, later: int, minute: int, sha1: string -> Key, format: int -> string)
    requires Injective(sha1) && Injective(format) && 60 * minute <= now < 60 * minute + 60
    ensures ScheduledKey(Slot(now), sha1, format) == ScheduledKey(Slot(later), sha1, format) <==>
            60 * minute <= later < 60 * minute + 60
  {
    SlotMeaning(now);
    SlotMeaning(later);
    if ScheduledKey(Slot(now), sha1, format) == ScheduledKey(Slot(later), sha1, format) {
      SamePrefix(SCHEDULED_PREFIX, format(Slot(now)), format(Slot(later)));
    }
  }

  lemma SortedPlain(names: seq<string>)
    requires forall n :: n in names ==> ',' !in n
    ensures forall n :: n in StringOrder.SortStrings(names) ==> ',' !in n
  {
    forall n | n in StringOrder.SortStrings(names) ensures ',' !in n {
      assert n in multiset(StringOrder.SortStrings(names));
      assert n in names;
    }
  }

  /** The bootstrap key depends on which channels are missing, not on their order, and on nothing else. */
  lemma BootstrapKeyIsChannelSet(a: seq<string>, b: seq<string>, sha1: string -> Key)
    requires Injective(sha1) && a != [] && b != []
    requires forall n :: n in a || n in b ==> ',' !in n
    ensures BootstrapKey(a, sha1) == BootstrapKey(b, sha1) <==> multiset(a) == multiset(b)
  {
    var x, y := StringOrder.SortStrings(a), StringOrder.SortStrings(b);
    StringOrder.SortForgetsOrder(a, b);
    if BootstrapKey(a, sha1) == BootstrapKey(b, sha1) {
      SamePrefix(BOOTSTRAP_PREFIX, Join(x, ","), Join(y, ","));
      SortedPlain(a);
      SortedPlain(b);
      assert |x| == |multiset(x)| && |y| == |multiset(y)|;
      SplitJoin(x, ',');
      SplitJoin(y, ',');
    }
  }
}
