/**
 The checkpoint of one Telegram channel under any interleaving of non-manual runs. Every statement of a run is one
 step; a run may stop between any two steps and a stale one may go on, however late.
 */
module Checkpoints {
  import opened Instants
  import opened Sequences
  import opened TelegramReader
  import opened BatchImport

  /** A row of collection_checkpoints, or its absence. */
  datatype Checkpoint = NoCheckpoint | At(id: int, publishedAt: Instant)

  /** Local state of a run of collectTelegram and of what processSource does after it. */
  datatype Run =
    | Ready(from: Instant, to: Instant, afterId: int, limit: nat)
    | Importing(from: Instant, to: Instant, afterId: int, limit: nat, seen: seq<Entry>,
                candidates: seq<Candidate>, start: nat, tally: Tally)
    | Done

  datatype State = State(history: seq<Entry>, checkpoint: Checkpoint, answered: set<int>, runs: map<nat, Run>)

  const CHANNEL: string := "channel"

  function CandidateOf(e: Entry): Candidate {
    Candidate(OfMessage(CHANNEL, e.id), e.id, Second(e.date))
  }

  function CandidatesOf(items: seq<Entry>): (r: seq<Candidate>)
    ensures |r| == |items|
    ensures forall i :: 0 <= i < |items| ==> r[i] == CandidateOf(items[i])
  {
    seq(|items|, i requires 0 <= i < |items| => CandidateOf(items[i]))
  }

  /** Lower bound of the range: the older of published_from and the checkpoint date. */
  function RunFrom(c: Checkpoint, from: Instant): Instant {
    if c.At? && Before(c.publishedAt, from) then c.publishedAt else from
  }

  function RunAfter(c: Checkpoint): int {
    if c.At? then c.id else 0
  }

  /** The accepted candidate with the largest message ID. */
  function Latest(successful: seq<Candidate>): (c: Candidate)
    requires successful != []
    ensures c in successful
    ensures forall x :: x in successful ==> x.messageId <= c.messageId
  {
    if |successful| == 1 then successful[0]
    else
      var init, last := successful[..|successful| - 1], successful[|successful| - 1];
      assert successful == init + [last];
      var best := Latest(init);
      if last.messageId > best.messageId then last else best
  }

  /** UpsertCheckpoint only moves forward. */
  function Upsert(c: Checkpoint, latest: Candidate): Checkpoint {
    if c.At? && c.id >= latest.messageId then c else At(latest.messageId, latest.publishedAt)
  }

  /** Messages of this channel that a reply settles. */
  function AnsweredIds(reply: Reply): set<int> {
    if reply.Failed? then {}
    else set a | a in reply.items && Settles(a) && a.externalId.OfMessage? && a.externalId.channel == CHANNEL
           :: a.externalId.id
  }

  // ----- Steps -----

  datatype Action =
    | Post(entry: Entry)                                    // Telegram: one more entry
    | Begin(run: nat, from: Instant, to: Instant, limit: nat)       // GetCheckpoint
    | Read(run: nat)                                        // ReadRange
    | Import(run: nat, reply: Reply)                        // one batch
    | Finish(run: nat)                                      // UpsertCheckpoint, if anything was accepted
    | GiveUp(run: nat)                                      // any error return

  predicate AllNormalize(items: seq<Entry>, normalizes: Entry -> bool) {
    forall e :: e in items ==> normalizes(e)
  }

  /**
   `bound` limits published_from of every run that starts without a checkpoint. A run goes on from its Read only when
   the pipeline takes every message; else it gives up.
   */
  ghost predicate Enabled(s: State, a: Action, bound: Instant, normalizes: Entry -> bool) {
    match a
    case Post(e) => ValidHistory(s.history + [e])
    case Begin(r, from, to, limit) => r !in s.runs && (s.checkpoint.NoCheckpoint? ==> AtMost(from, bound))
    case Read(r) =>
      && r in s.runs && s.runs[r].Ready?
      && AllNormalize(ReadResult(s.history, s.runs[r].from, s.runs[r].to, s.runs[r].afterId, s.runs[r].limit),
                      normalizes)
    case Import(r, _) => r in s.runs && s.runs[r].Importing? && s.runs[r].start < |s.runs[r].candidates|
    case Finish(r) => r in s.runs && s.runs[r].Importing? && s.runs[r].start >= |s.runs[r].candidates|
    case GiveUp(r) => r in s.runs
  }

  function Apply(s: State, a: Action): State {
    match a
    case Post(e) => s.(history := s.history + [e])
    case Begin(r, from, to, limit) =>
      s.(runs := s.runs[r := Ready(RunFrom(s.checkpoint, from), to, RunAfter(s.checkpoint), limit)])
    case Read(r) =>
      if r in s.runs && s.runs[r].Ready? then
        var x := s.runs[r];
        var items := ReadResult(s.history, x.from, x.to, x.afterId, x.limit);
        s.(runs := s.runs[r := Importing(x.from, x.to, x.afterId, x.limit, s.history, CandidatesOf(items), 0, EMPTY)])
      else s
    case Import(r, reply) =>
      if r in s.runs && s.runs[r].Importing? && s.runs[r].start < |s.runs[r].candidates| then
        var x := s.runs[r];
        var end := BatchEnd(x.candidates, x.start);
        var t := CountBatch(x.tally, x.candidates[x.start..end], reply, ByExternalId(x.candidates));
        s.(answered := s.answered + AnsweredIds(reply),
           runs := s.runs[r := if t.failure == NoFailure then x.(start := end, tally := t) else Done])
      else s
    case Finish(r) =>
      if r in s.runs && s.runs[r].Importing? && s.runs[r].tally.successful != [] then
        s.(checkpoint := Upsert(s.checkpoint, Latest(s.runs[r].tally.successful)), runs := s.runs[r := Done])
      else s.(runs := s.runs[r := Done])
    case GiveUp(r) => s.(runs := s.runs[r := Done])
  }

  ghost predicate Init(s: State) {
    ValidHistory(s.history) && s.checkpoint.NoCheckpoint? && s.answered == {} && s.runs == map[]
  }

  /** States reached one step after another from an initial state. */
  ghost predicate Behavior(b: seq<State>, acts: seq<Action>, bound: Instant, normalizes: Entry -> bool) {
    && |b| == |acts| + 1 && Init(b[0])
    && forall i :: 0 <= i < |acts| ==> Enabled(b[i], acts[i], bound, normalizes) && b[i + 1] == Apply(b[i], acts[i])
  }

  // ----- Safety -----

  /** A message the collection must not lose. */
  predicate Relevant(e: Entry, bound: Instant) {
    Text(e) && AtMost(bound, Second(e.date))
  }

  /** Every relevant message up to `last` has been settled. */
  ghost predicate Covered(h: seq<Entry>, answered: set<int>, last: int, bound: Instant) {
    forall i :: 0 <= i < |h| && h[i].id <= last && Relevant(h[i], bound) ==> h[i].id in answered
  }

  /** Nothing relevant at or below the checkpoint was skipped. */
  ghost predicate NothingSkipped(s: State, bound: Instant) {
    s.checkpoint.At? ==> Covered(s.history, s.answered, s.checkpoint.id, bound)
  }

  /**
   A relevant message, PAGE_LIMIT consecutive service entries above it, and above those a text message, the first of
   which the pipeline accepts.
   */
  ghost predicate DangerousGap(h: seq<Entry>, bound: Instant, normalizes: Entry -> bool) {
    exists j: nat, i: nat, k: nat :: DangerousAt(h, j, i, k, bound, normalizes)
  }

  ghost predicate DangerousAt(h: seq<Entry>, j: nat, i: nat, k: nat, bound: Instant, normalizes: Entry -> bool) {
    && j < i && ServiceRun(h, i) && i + PAGE_LIMIT <= k < |h| && Relevant(h[j], bound)
    && Text(h[k]) && normalizes(h[k]) && forall x :: i + PAGE_LIMIT <= x < k ==> !Text(h[x])
  }

  // ----- Invariant -----

  /** Where a run starts: at the bound without a checkpoint, or at a message no newer than its lower date limit. */
  ghost predicate StartsAt(h: seq<Entry>, from: Instant, afterId: int, bound: Instant) {
    || (afterId == 0 && AtMost(from, bound))
    || (exists i :: 0 <= i < |h| && h[i].id == afterId && AtMost(from, Second(h[i].date)))
  }

  ghost predicate RunOk(s: State, x: Run, bound: Instant, normalizes: Entry -> bool) {
    match x
    case Ready(from, to, afterId, limit) =>
      StartsAt(s.history, from, afterId, bound) && Covered(s.history, s.answered, afterId, bound)
    case Importing(from, to, afterId, limit, seen, candidates, start, tally) =>
      && seen <= s.history
      && StartsAt(seen, from, afterId, bound) && Covered(seen, s.answered, afterId, bound)
      && candidates == CandidatesOf(ReadResult(seen, from, to, afterId, limit))
      && AllNormalize(ReadResult(seen, from, to, afterId, limit), normalizes)
      && start <= |candidates| && tally.failure == NoFailure && Balanced(tally, candidates)
      && (forall i :: 0 <= i < start ==> candidates[i].messageId in s.answered)
    case Done => true
  }

  ghost predicate CheckpointOk(s: State, bound: Instant) {
    s.checkpoint.At? ==>
      && (exists i :: 0 <= i < |s.history| && s.history[i].id == s.checkpoint.id
                      && Second(s.history[i].date) == s.checkpoint.publishedAt)
      && Covered(s.history, s.answered, s.checkpoint.id, bound)
  }

  ghost predicate Inv(s: State, bound: Instant, normalizes: Entry -> bool) {
    && ValidHistory(s.history)
    && CheckpointOk(s, bound)
    && forall r :: r in s.runs ==> RunOk(s, s.runs[r], bound, normalizes)
  }

  // ----- Posting -----

  lemma CoveredAfterPost(h: seq<Entry>, e: Entry, answered: set<int>, last: int, bound: Instant)
    requires ValidHistory(h + [e]) && Covered(h, answered, last, bound)
    requires last == 0 || exists i :: 0 <= i < |h| && h[i].id == last
    ensures Covered(h + [e], answered, last, bound)
  {
    HistoryOrder(h + [e], |h|, |h|);
    if last != 0 {
      var i :| 0 <= i < |h| && h[i].id == last;
      HistoryOrder(h + [e], i, |h|);
    }
  }

  lemma StartsAtGrows(h: seq<Entry>, h': seq<Entry>, from: Instant, afterId: int, bound: Instant)
    requires h <= h' && StartsAt(h, from, afterId, bound)
    ensures StartsAt(h', from, afterId, bound)
  {
    if exists i :: 0 <= i < |h| && h[i].id == afterId && AtMost(from, Second(h[i].date)) {
      var i :| 0 <= i < |h| && h[i].id == afterId && AtMost(from, Second(h[i].date));
      assert h'[i] == h[i];
    }
  }

  lemma PostKeepsInv(s: State, e: Entry, bound: Instant, normalizes: Entry -> bool)
    requires Inv(s, bound, normalizes) && ValidHistory(s.history + [e])
    ensures Inv(Apply(s, Post(e)), bound, normalizes)
  {
    var s' := Apply(s, Post(e));
    if s.checkpoint.At? {
      CoveredAfterPost(s.history, e, s.answered, s.checkpoint.id, bound);
      var i :| 0 <= i < |s.history| && s.history[i].id == s.checkpoint.id
                 && Second(s.history[i].date) == s.checkpoint.publishedAt;
      assert s'.history[i] == s.history[i];
    }
    forall r | r in s'.runs ensures RunOk(s', s'.runs[r], bound, normalizes) {
      var x := s.runs[r];
      if x.Ready? {
        CoveredAfterPost(s.history, e, s.answered, x.afterId, bound);
        StartsAtGrows(s.history, s'.history, x.from, x.afterId, bound);
      }
    }
  }

  // ----- The other steps -----

  lemma BeginKeepsInv(s: State, a: Action, bound: Instant, normalizes: Entry -> bool)
    requires Inv(s, bound, normalizes) && a.Begin? && Enabled(s, a, bound, normalizes)
    ensures Inv(Apply(s, a), bound, normalizes)
  {
    var s' := Apply(s, a);
    assert RunOk(s', s'.runs[a.run], bound, normalizes) by {
      if s.checkpoint.NoCheckpoint? {
        forall i | 0 <= i < |s.history| ensures s.history[i].id > 0 {
          HistoryOrder(s.history, i, i);
        }
      }
    }
    forall r | r in s.runs && r != a.run ensures RunOk(s', s'.runs[r], bound, normalizes) {
      assert RunOk(s, s.runs[r], bound, normalizes);
    }
  }

  lemma ReadKeepsInv(s: State, a: Action, bound: Instant, normalizes: Entry -> bool)
    requires Inv(s, bound, normalizes) && a.Read? && Enabled(s, a, bound, normalizes)
    ensures Inv(Apply(s, a), bound, normalizes)
  {
    hide ValidHistory, ReadResult, AllNormalize, StartsAt, Covered;
    var s' := Apply(s, a);
    assert RunOk(s, s.runs[a.run], bound, normalizes);
    forall r | r in s.runs && r != a.run ensures RunOk(s', s'.runs[r], bound, normalizes) {
      assert RunOk(s, s.runs[r], bound, normalizes);
    }
  }

  lemma CoveredMore(h: seq<Entry>, answered: set<int>, more: set<int>, last: int, bound: Instant)
    requires Covered(h, answered, last, bound) && answered <= more
    ensures Covered(h, more, last, bound)
  {
  }

  /** More answers never hurt. */
  lemma RunOkMore(s: State, s': State, x: Run, bound: Instant, normalizes: Entry -> bool)
    requires RunOk(s, x, bound, normalizes) && s.history == s'.history && s.answered <= s'.answered
    ensures RunOk(s', x, bound, normalizes)
  {
    if x.Ready? {
      CoveredMore(s.history, s.answered, s'.answered, x.afterId, bound);
    } else if x.Importing? {
      CoveredMore(x.seen, s.answered, s'.answered, x.afterId, bound);
    }
  }

  lemma BatchAnswered(x: Run, reply: Reply, answered: set<int>)
    requires x.Importing? && x.tally.failure == NoFailure && Balanced(x.tally, x.candidates)
    requires x.start < |x.candidates|
    requires forall i :: 0 <= i < |x.candidates| ==>
               x.candidates[i].externalId == OfMessage(CHANNEL, x.candidates[i].messageId)
    requires forall i :: 0 <= i < x.start ==> x.candidates[i].messageId in answered
    ensures var end := BatchEnd(x.candidates, x.start);
            var t := CountBatch(x.tally, x.candidates[x.start..end], reply, ByExternalId(x.candidates));
            t.failure == NoFailure ==>
              && Balanced(t, x.candidates)
              && forall i :: 0 <= i < end ==> x.candidates[i].messageId in answered + AnsweredIds(reply)
  {
    var end := BatchEnd(x.candidates, x.start);
    var batch := x.candidates[x.start..end];
    var t := CountBatch(x.tally, batch, reply, ByExternalId(x.candidates));
    if t.failure == NoFailure {
      CountAllBalanced(x.tally, reply.items, x.candidates);
      BatchSettles(x.tally, batch, reply, ByExternalId(x.candidates));
      forall i | x.start <= i < end ensures x.candidates[i].messageId in AnsweredIds(reply) {
        assert batch[i - x.start] == x.candidates[i];
        assert Settled(batch[i - x.start], reply);
      }
    }
  }

  lemma ImportKeepsInv(s: State, a: Action, bound: Instant, normalizes: Entry -> bool)
    requires Inv(s, bound, normalizes) && a.Import? && Enabled(s, a, bound, normalizes)
    ensures Inv(Apply(s, a), bound, normalizes)
  {
    hide CountBatch, ByExternalId, ValidHistory, ReadResult, AnsweredIds, AllNormalize, StartsAt, Covered, Balanced;
    var s' := Apply(s, a);
    var x := s.runs[a.run];
    assert RunOk(s, x, bound, normalizes);
    if s.checkpoint.At? {
      CoveredMore(s.history, s.answered, s'.answered, s.checkpoint.id, bound);
    }
    RunOkMore(s, s', x, bound, normalizes);
    BatchAnswered(x, a.reply, s.answered);
    forall r | r in s.runs && r != a.run ensures RunOk(s', s'.runs[r], bound, normalizes) {
      RunOkMore(s, s', s.runs[r], bound, normalizes);
    }
  }

  // ----- Moving the checkpoint -----

  /** A window is a contiguous part of the history. */
  lemma {:induction false} WindowIsSlice(h: seq<Entry>, offsetDate: int, minId: int) returns (lo: nat)
    requires ValidHistory(h)
    ensures var w := Window(h, 0, offsetDate, minId); lo + |w| <= |h| && w == h[lo..lo + |w|]
  {
    hide Window, Filter, ValidHistory, Visible;
    lo := 0;
    WindowLast(h, offsetDate, minId);
    if h != [] {
      var n := |h| - 1;
      HistoryPrefix(h, n);
      var w := Window(h[..n], 0, offsetDate, minId);
      lo := WindowIsSlice(h[..n], offsetDate, minId);
      SliceOfInit(h, n, lo, lo + |w|);
      if Visible(h[n], 0, offsetDate, minId) {
        if w == [] {
          lo := n;
        } else if lo + |w| < n {
          WindowHasNoHole(h, lo, w, offsetDate, minId);
        }
        SliceWithNext(h, lo, n);
      }
    }
  }

  lemma SliceOfInit<T>(h: seq<T>, n: nat, lo: nat, hi: nat)
    requires lo <= hi <= n <= |h|
    ensures h[..n][lo..hi] == h[lo..hi]
  {
  }

  lemma SliceWithNext<T>(h: seq<T>, lo: nat, n: nat)
    requires lo <= n < |h|
    ensures h[lo..n] + [h[n]] == h[lo..n + 1]
  {
  }

  lemma WindowLast(h: seq<Entry>, offsetDate: int, minId: int)
    ensures h == [] ==> Window(h, 0, offsetDate, minId) == []
    ensures h != [] ==>
              var w := Window(h[..|h| - 1], 0, offsetDate, minId);
              Window(h, 0, offsetDate, minId)
              == if Visible(h[|h| - 1], 0, offsetDate, minId) then w + [h[|h| - 1]] else w
  {
  }

  lemma WindowHasNoHole(h: seq<Entry>, lo: nat, w: seq<Entry>, offsetDate: int, minId: int)
    requires ValidHistory(h) && w != [] && lo + |w| < |h| - 1
    requires w == Window(h[..|h| - 1], 0, offsetDate, minId) && w == h[lo..lo + |w|]
    ensures !Visible(h[|h| - 1], 0, offsetDate, minId)
  {
    hide Window, Filter, ValidHistory;
    var n := lo + |w|;
    var k := FromWindow(h[..|h| - 1], w, |w| - 1, offsetDate, minId);
    assert w[|w| - 1] == h[n - 1];
    HistoryOrder(h, n - 1, n);
    HistoryOrder(h, n, |h| - 1);
    if Visible(h[|h| - 1], 0, offsetDate, minId) {
      assert h[..|h| - 1][n] == h[n];
      var x := InWindow(h[..|h| - 1], n, offsetDate, minId);
      assert w[x] == h[lo + x];
      HistoryOrder(h, lo + x, n);
    }
  }

  /** A message between the start of a run and an entry that run returned was in its range. */
  lemma InRange(h: seq<Entry>, i: nat, k: nat, from: Instant, to: Instant, afterId: int, bound: Instant)
    requires ValidHistory(h) && i < |h| && k < |h| && StartsAt(h, from, afterId, bound)
    requires Relevant(h[i], bound) && afterId < h[i].id <= h[k].id
    requires Visible(h[k], 0, to.Floor, afterId) && Eligible(h[k], from, to, afterId)
    ensures Visible(h[i], 0, to.Floor, afterId) && Eligible(h[i], from, to, afterId)
  {
    if k < i {
      HistoryOrder(h, k, i);
    } else {
      HistoryOrder(h, i, k);
    }
    if exists a :: 0 <= a < |h| && h[a].id == afterId && AtMost(from, Second(h[a].date)) {
      var a :| 0 <= a < |h| && h[a].id == afterId && AtMost(from, Second(h[a].date));
      if i <= a {
        HistoryOrder(h, i, a);
      } else {
        HistoryOrder(h, a, i);
      }
    }
  }

  /** Above the horizon the candidates are the oldest: whatever precedes a candidate is a candidate. */
  lemma OldestFirst(w: seq<Entry>, c: nat, x: nat, z: nat, from: Instant, to: Instant, afterId: int, limit: nat)
    requires ValidHistory(w) && c <= x <= z < |w|
    requires Eligible(w[x], from, to, afterId)
    requires w[z] in OldestEligible(w[c..], from, to, afterId, limit)
    ensures w[x] in OldestEligible(w[c..], from, to, afterId, limit)
  {
    hide ValidHistory, Eligible, Filter;
    var all := EligibleEntries(w[c..], from, to, afterId);
    SuffixIncreasing(w, c, from, to, afterId);
    assert w[c..][x - c] in all;
    var i :| 0 <= i < |all| && all[i] == w[x];
    var kept := Take(all, limit);
    var k :| 0 <= k < |kept| && kept[k] == w[z];
    HistoryOrder(w, x, z);
    assert Id(all[i]) <= Id(all[k]);
    assert i <= k;
    assert kept[i] == w[x];
  }

  /** Where in the window an entry returned by a read stands. */
  lemma ReadAboveHorizon(w: seq<Entry>, from: Instant, to: Instant, afterId: int, limit: nat, e: Entry) returns (z: nat)
    requires e in OldestEligible(w[Horizon(w)..], from, to, afterId, limit)
    ensures Horizon(w) <= z < |w| && w[z] == e && Eligible(e, from, to, afterId)
  {
    var c := Horizon(w);
    assert e in EligibleEntries(w[c..], from, to, afterId);
    var y :| 0 <= y < |w[c..]| && w[c..][y] == e;
    z := c + y;
  }

  lemma InWindow(h: seq<Entry>, i: nat, offsetDate: int, minId: int) returns (x: nat)
    requires i < |h| && Visible(h[i], 0, offsetDate, minId)
    ensures var w := Window(h, 0, offsetDate, minId); x < |w| && w[x] == h[i]
  {
    var w := Window(h, 0, offsetDate, minId);
    assert h[i] in h;
    assert h[i] in w;
    x :| 0 <= x < |w| && w[x] == h[i];
  }

  lemma FromWindow(h: seq<Entry>, w: seq<Entry>, z: nat, offsetDate: int, minId: int) returns (k: nat)
    requires w == Window(h, 0, offsetDate, minId) && z < |w|
    ensures k < |h| && h[k] == w[z] && Visible(h[k], 0, offsetDate, minId)
  {
    assert w[z] in w;
    assert w[z] in h;
    k :| 0 <= k < |h| && h[k] == w[z];
  }

  lemma AlsoInWindow(h: seq<Entry>, w: seq<Entry>, i: nat, z: nat, from: Instant, to: Instant, afterId: int,
                     bound: Instant) returns (x: nat)
    requires ValidHistory(h) && i < |h| && StartsAt(h, from, afterId, bound)
    requires w == Window(h, 0, to.Floor, afterId)
    requires z < |w| && Eligible(w[z], from, to, afterId)
    requires Relevant(h[i], bound) && afterId < h[i].id <= w[z].id
    ensures x < |w| && w[x] == h[i] && Eligible(w[x], from, to, afterId)
  {
    var k := FromWindow(h, w, z, to.Floor, afterId);
    InRange(h, i, k, from, to, afterId, bound);
    x := InWindow(h, i, to.Floor, afterId);
  }

  /** Without a dangerous gap, everything relevant up to an entry the run returned was returned too. */
  lemma NothingBetween(h: seq<Entry>, w: seq<Entry>, i: nat, last: Entry, from: Instant, to: Instant, afterId: int,
                       limit: nat, bound: Instant, normalizes: Entry -> bool)
    requires ValidHistory(h) && i < |h| && StartsAt(h, from, afterId, bound)
    requires !DangerousGap(h, bound, normalizes)
    requires w == Window(h, 0, to.Floor, afterId)
    requires last in OldestEligible(w[Horizon(w)..], from, to, afterId, limit)
    requires AllNormalize(OldestEligible(w[Horizon(w)..], from, to, afterId, limit), normalizes)
    requires Relevant(h[i], bound) && afterId < h[i].id <= last.id
    ensures h[i] in OldestEligible(w[Horizon(w)..], from, to, afterId, limit)
  {
    hide OldestEligible, AllNormalize, DangerousGap, Horizon, Relevant, Eligible, ValidHistory, StartsAt, Visible;
    var z := ReadAboveHorizon(w, from, to, afterId, limit, last);
    var x := AlsoInWindow(h, w, i, z, from, to, afterId, bound);
    FilterValid(h, (e: Entry) => Visible(e, 0, to.Floor, afterId));
    var lo := WindowIsSlice(h, to.Floor, afterId);
    PrecedingAlsoReturned(h, lo, w, x, z, from, to, afterId, limit, bound, normalizes);
  }

  lemma {:induction false} FirstText(w: seq<Entry>, c: nat, z: nat) returns (y: nat)
    requires c <= z < |w| && Text(w[z])
    ensures c <= y <= z && Text(w[y]) && forall n :: c <= n < y ==> !Text(w[n])
    decreases z - c
  {
    y := c;
    if !Text(w[c]) {
      y := FirstText(w, c + 1, z);
    }
  }

  /** The first text message above the horizon is among those a run returns, if it returns any. */
  lemma FirstTextReturned(w: seq<Entry>, c: nat, x: nat, z: nat, from: Instant, to: Instant, afterId: int, limit: nat)
    returns (y: nat)
    requires ValidHistory(w) && x < c <= z < |w| && Eligible(w[x], from, to, afterId)
    requires Eligible(w[z], from, to, afterId) && w[z] in OldestEligible(w[c..], from, to, afterId, limit)
    ensures c <= y <= z && Text(w[y]) && forall n :: c <= n < y ==> !Text(w[n])
    ensures w[y] in OldestEligible(w[c..], from, to, afterId, limit)
  {
    hide OldestEligible, ValidHistory;
    y := FirstText(w, c, z);
    HistoryOrder(w, x, y);
    HistoryOrder(w, y, z);
    OldestFirst(w, c, y, z, from, to, afterId, limit);
  }

  lemma PrecedingAlsoReturned(h: seq<Entry>, lo: nat, w: seq<Entry>, x: nat, z: nat,
                              from: Instant, to: Instant, afterId: int, limit: nat, bound: Instant,
                                  normalizes: Entry -> bool)
    requires ValidHistory(w) && lo + |w| <= |h| && w == h[lo..lo + |w|] && !DangerousGap(h, bound, normalizes)
    requires x < |w| && Horizon(w) <= z < |w| && w[x].id <= w[z].id
    requires Eligible(w[x], from, to, afterId) && Relevant(w[x], bound) && Eligible(w[z], from, to, afterId)
    requires w[z] in OldestEligible(w[Horizon(w)..], from, to, afterId, limit)
    requires AllNormalize(OldestEligible(w[Horizon(w)..], from, to, afterId, limit), normalizes)
    ensures w[x] in OldestEligible(w[Horizon(w)..], from, to, afterId, limit)
  {
    SameEntry(w, x, z);
    if Horizon(w) <= x {
      OldestFirst(w, Horizon(w), x, z, from, to, afterId, limit);
    } else {
      var y := FirstTextReturned(w, Horizon(w), x, z, from, to, afterId, limit);
      GapInHistory(h, lo, w, Horizon(w), x, y, bound, normalizes);
    }
  }

  lemma SameEntry(w: seq<Entry>, x: nat, z: nat)
    requires ValidHistory(w) && x < |w| && z < |w| && w[x].id <= w[z].id
    ensures x <= z
  {
    if z < x {
      HistoryOrder(w, z, x);
    }
  }

  lemma GapInHistory(h: seq<Entry>, lo: nat, w: seq<Entry>, c: nat, x: nat, y: nat, bound: Instant,
                     normalizes: Entry -> bool)
    requires lo + |w| <= |h| && w == h[lo..lo + |w|]
    requires PAGE_LIMIT <= c && ServiceRun(w, c - PAGE_LIMIT) && x < c <= y < |w|
    requires Relevant(w[x], bound) && Text(w[y]) && normalizes(w[y]) && forall n :: c <= n < y ==> !Text(w[n])
    ensures DangerousGap(h, bound, normalizes)
  {
    assert forall j :: 0 <= j < |w| ==> w[j] == h[lo + j];
    assert x < c - PAGE_LIMIT;
    assert ServiceRun(h, lo + c - PAGE_LIMIT) by {
      forall j | lo + c - PAGE_LIMIT <= j < lo + c ensures h[j].Service? {
        assert w[j - lo].Service?;
      }
    }
    forall n | lo + c <= n < lo + y ensures !Text(h[n]) {
      assert w[n - lo] == h[n];
    }
    assert DangerousAt(h, lo + x, lo + c - PAGE_LIMIT, lo + y, bound, normalizes);
  }

  /** When every candidate of a run is settled, so is everything up to any of its candidates. */
  lemma CoveredUpToCandidate(x: Run, answered: set<int>, latest: Candidate, bound: Instant, normalizes: Entry -> bool)
    requires x.Importing? && ValidHistory(x.seen) && !DangerousGap(x.seen, bound, normalizes)
    requires StartsAt(x.seen, x.from, x.afterId, bound) && Covered(x.seen, answered, x.afterId, bound)
    requires x.candidates == CandidatesOf(ReadResult(x.seen, x.from, x.to, x.afterId, x.limit))
    requires AllNormalize(ReadResult(x.seen, x.from, x.to, x.afterId, x.limit), normalizes)
    requires forall i :: 0 <= i < |x.candidates| ==> x.candidates[i].messageId in answered
    requires latest in x.candidates
    ensures Covered(x.seen, answered, latest.messageId, bound)
  {
    hide Window, ValidHistory, DangerousGap, StartsAt, OldestEligible, Horizon;
    var w := Window(x.seen, 0, x.to.Floor, x.afterId);
    var items := ReadResult(x.seen, x.from, x.to, x.afterId, x.limit);
    var k :| 0 <= k < |items| && latest == CandidateOf(items[k]);
    forall i | 0 <= i < |x.seen| && x.seen[i].id <= latest.messageId && Relevant(x.seen[i], bound)
      ensures x.seen[i].id in answered
    {
      if x.afterId < x.seen[i].id {
        NothingBetween(x.seen, w, i, items[k], x.from, x.to, x.afterId, x.limit, bound, normalizes);
        var j :| 0 <= j < |items| && items[j] == x.seen[i];
        assert x.candidates[j].messageId in answered;
      }
    }
  }

  /** Entries posted after a history was read are newer than everything in it. */
  lemma CoveredInGrown(seen: seq<Entry>, h: seq<Entry>, answered: set<int>, k: nat, bound: Instant)
    requires ValidHistory(h) && seen <= h && k < |seen| && Covered(seen, answered, seen[k].id, bound)
    ensures Covered(h, answered, seen[k].id, bound)
  {
    forall i | 0 <= i < |h| && h[i].id <= seen[k].id && Relevant(h[i], bound) ensures h[i].id in answered {
      if |seen| <= i {
        HistoryOrder(h, k, i);
      } else {
        assert h[i] == seen[i];
      }
    }
  }

  lemma GapGrows(h: seq<Entry>, h': seq<Entry>, bound: Instant, normalizes: Entry -> bool)
    requires h <= h' && DangerousGap(h, bound, normalizes)
    ensures DangerousGap(h', bound, normalizes)
  {
    var j: nat, i: nat, k: nat :| DangerousAt(h, j, i, k, bound, normalizes);
    assert ServiceRun(h', i);
    assert forall x :: i + PAGE_LIMIT <= x < k ==> h'[x] == h[x];
    assert DangerousAt(h', j, i, k, bound, normalizes);
  }

  /** A candidate of a run stands for an entry of the history the run saw. */
  lemma CandidateInHistory(x: Run, c: Candidate) returns (k: nat)
    requires x.Importing? && c in x.candidates
    requires x.candidates == CandidatesOf(ReadResult(x.seen, x.from, x.to, x.afterId, x.limit))
    ensures k < |x.seen| && c == CandidateOf(x.seen[k])
  {
    var items := ReadResult(x.seen, x.from, x.to, x.afterId, x.limit);
    var i :| 0 <= i < |items| && c == CandidateOf(items[i]);
    var w := Window(x.seen, 0, x.to.Floor, x.afterId);
    var z := ReadAboveHorizon(w, x.from, x.to, x.afterId, x.limit, items[i]);
    k := FromWindow(x.seen, w, z, x.to.Floor, x.afterId);
  }

  lemma SafeWhenRead(h: seq<Entry>, seen: seq<Entry>, bound: Instant, normalizes: Entry -> bool)
    requires ValidHistory(h) && seen <= h && !DangerousGap(h, bound, normalizes)
    ensures ValidHistory(seen) && !DangerousGap(seen, bound, normalizes)
  {
    HistoryPrefix(h, |seen|);
    assert h[..|seen|] == seen;
    if DangerousGap(seen, bound, normalizes) {
      GapGrows(seen, h, bound, normalizes);
    }
  }

  /** The checkpoint a finishing run writes covers everything relevant up to it. */
  lemma LatestIsCovered(s: State, x: Run, bound: Instant, normalizes: Entry -> bool) returns (k: nat)
    requires ValidHistory(s.history) && x.Importing? && RunOk(s, x, bound, normalizes) &&
             !DangerousGap(s.history, bound, normalizes)
    requires x.start == |x.candidates| && x.tally.successful != []
    ensures var latest := Latest(x.tally.successful);
            && k < |s.history| && s.history[k].id == latest.messageId && Second(s.history[k].date) == latest.publishedAt
            && Covered(s.history, s.answered, latest.messageId, bound)
  {
    var latest := Latest(x.tally.successful);
    assert latest in x.candidates;
    SafeWhenRead(s.history, x.seen, bound, normalizes);
    CoveredUpToCandidate(x, s.answered, latest, bound, normalizes);
    k := CandidateInHistory(x, latest);
    CoveredInGrown(x.seen, s.history, s.answered, k, bound);
    assert s.history[k] == x.seen[k];
  }

  lemma FinishKeepsInv(s: State, a: Action, bound: Instant, normalizes: Entry -> bool)
    requires Inv(s, bound, normalizes) && a.Finish? && Enabled(s, a, bound, normalizes) &&
             !DangerousGap(s.history, bound, normalizes)
    ensures Inv(Apply(s, a), bound, normalizes)
  {
    var s' := Apply(s, a);
    var x := s.runs[a.run];
    assert RunOk(s, x, bound, normalizes);
    if x.tally.successful != [] {
      var k := LatestIsCovered(s, x, bound, normalizes);
    }
    forall r | r in s.runs && r != a.run ensures RunOk(s', s'.runs[r], bound, normalizes) {
      assert RunOk(s, s.runs[r], bound, normalizes);
      RunOkMore(s, s', s.runs[r], bound, normalizes);
    }
  }

  lemma StepKeepsInv(s: State, a: Action, bound: Instant, normalizes: Entry -> bool)
    requires Inv(s, bound, normalizes) && Enabled(s, a, bound, normalizes) &&
             !DangerousGap(s.history, bound, normalizes)
    ensures Inv(Apply(s, a), bound, normalizes)
  {
    match a
    case Post(e) => PostKeepsInv(s, e, bound, normalizes);
    case Begin(_, _, _, _) => BeginKeepsInv(s, a, bound, normalizes);
    case Read(_) => ReadKeepsInv(s, a, bound, normalizes);
    case Import(_, _) => ImportKeepsInv(s, a, bound, normalizes);
    case Finish(_) => FinishKeepsInv(s, a, bound, normalizes);
    case GiveUp(r) =>
      var s' := Apply(s, a);
      forall q | q in s.runs && q != r ensures RunOk(s', s'.runs[q], bound, normalizes) {
        assert RunOk(s, s.runs[q], bound, normalizes);
      }
  }

  // ----- Whole behaviours -----

  lemma {:induction false} HistoryGrows(b: seq<State>, acts: seq<Action>, bound: Instant, normalizes: Entry -> bool,
                                        n: nat)
    requires Behavior(b, acts, bound, normalizes) && n < |b|
    ensures b[n].history <= b[|b| - 1].history
    decreases |b| - n
  {
    if n < |b| - 1 {
      HistoryGrows(b, acts, bound, normalizes, n + 1);
      assert Enabled(b[n], acts[n], bound, normalizes);
      assert b[n].history <= b[n + 1].history;
    }
  }

  lemma {:induction false} InvAlong(b: seq<State>, acts: seq<Action>, bound: Instant, normalizes: Entry -> bool, n: nat)
    requires Behavior(b, acts, bound, normalizes) && n < |b|
    requires !DangerousGap(b[|b| - 1].history, bound, normalizes)
    ensures Inv(b[n], bound, normalizes)
  {
    if n > 0 {
      InvAlong(b, acts, bound, normalizes, n - 1);
      assert Enabled(b[n - 1], acts[n - 1], bound, normalizes);
      HistoryGrows(b, acts, bound, normalizes, n - 1);
      if DangerousGap(b[n - 1].history, bound, normalizes) {
        GapGrows(b[n - 1].history, b[|b| - 1].history, bound, normalizes);
      }
      StepKeepsInv(b[n - 1], acts[n - 1], bound, normalizes);
    }
  }

  /** In every state of every behaviour: nothing relevant at or below the checkpoint was skipped. */
  lemma NoMessageSkipped(b: seq<State>, acts: seq<Action>, bound: Instant, normalizes: Entry -> bool)
    requires Behavior(b, acts, bound, normalizes)
    requires !DangerousGap(b[|b| - 1].history, bound, normalizes)
    ensures forall n :: 0 <= n < |b| ==> NothingSkipped(b[n], bound)
  {
    forall n | 0 <= n < |b| ensures NothingSkipped(b[n], bound) {
      InvAlong(b, acts, bound, normalizes, n);
    }
  }

  // ----- Every dangerous gap can lose a message -----

  lemma WholeWindow(h: seq<Entry>, offsetDate: int)
    requires ValidHistory(h)
    requires forall i :: 0 <= i < |h| ==> h[i].date < offsetDate
    ensures Window(h, 0, offsetDate, 0) == h
  {
    forall i | 0 <= i < |h| ensures Visible(h[i], 0, offsetDate, 0) {
      HistoryOrder(h, i, i);
    }
    FilterAll(h, (e: Entry) => Visible(e, 0, offsetDate, 0));
  }

  lemma FirstEligible(h: seq<Entry>, c: nat, from: Instant, to: Instant) returns (x: nat)
    requires c < |h| && Eligible(h[|h| - 1], from, to, 0)
    ensures c <= x < |h|
    ensures var all := EligibleEntries(h[c..], from, to, 0); all != [] && all[0] == h[x]
    ensures Eligible(h[x], from, to, 0)
  {
    var all := EligibleEntries(h[c..], from, to, 0);
    assert h[c..][|h| - 1 - c] in all;
    assert all[0] in h[c..];
    var y :| 0 <= y < |h[c..]| && h[c..][y] == all[0];
    x := c + y;
  }

  lemma OnlyLast(h: seq<Entry>, c: nat, from: Instant, to: Instant)
    requires c < |h| && Eligible(h[|h| - 1], from, to, 0) && forall n :: c <= n < |h| - 1 ==> !Text(h[n])
    ensures OldestEligible(h[c..], from, to, 0, 1) == [h[|h| - 1]]
  {
    hide EligibleEntries;
    var x := FirstEligible(h, c, from, to);
    assert Text(h[x]);
    assert x == |h| - 1;
  }

  /** A gap below the newest entry, which is text: the horizon lies above the gap. */
  lemma HorizonAboveGap(h: seq<Entry>, i: nat)
    requires ServiceRun(h, i) && i + PAGE_LIMIT <= |h| - 1 && Text(h[|h| - 1])
    ensures i + PAGE_LIMIT <= Horizon(h) <= |h| - 1
  {
    assert h[|h| - 1].Message?;
  }

  /** A history that ends in the first text message above the gap: that is what a first run with limit 1 returns. */
  lemma ReadJumpsGap(h: seq<Entry>, j: nat, i: nat, bound: Instant, normalizes: Entry -> bool, last: int)
    requires ValidHistory(h) && |h| > 0 && DangerousAt(h, j, i, |h| - 1, bound, normalizes) && last == h[|h| - 1].date
    ensures ReadResult(h, bound, Second(last + 1), 0, 1) == [h[|h| - 1]] && h[j].id < h[|h| - 1].id
  {
    hide OldestEligible, Horizon, ServiceRun, ValidHistory, Window;
    var to := Second(last + 1);
    assert to.Floor == last + 1;
    forall x | 0 <= x < |h| ensures h[x].date < last + 1 {
      HistoryOrder(h, x, |h| - 1);
    }
    WholeWindow(h, last + 1);
    HorizonAboveGap(h, i);
    HistoryOrder(h, j, |h| - 1);
    HistoryOrder(h, |h| - 1, |h| - 1);
    OnlyLast(h, Horizon(h), bound, to);
  }

  ghost predicate SkipsAt(s: State, j: nat, bound: Instant) {
    && s.checkpoint.At? && j < |s.history|
    && s.history[j].id <= s.checkpoint.id && Relevant(s.history[j], bound) && s.history[j].id !in s.answered
  }

  lemma BehaviorSnoc(b: seq<State>, acts: seq<Action>, a: Action, bound: Instant, normalizes: Entry -> bool)
    requires Behavior(b, acts, bound, normalizes) && Enabled(b[|b| - 1], a, bound, normalizes)
    ensures Behavior(b + [Apply(b[|b| - 1], a)], acts + [a], bound, normalizes)
  {
  }

  lemma {:induction false} PostRest(b: seq<State>, acts: seq<Action>, h: seq<Entry>, j: nat, bound: Instant,
                                    normalizes: Entry -> bool)
    returns (b': seq<State>, acts': seq<Action>)
    requires Behavior(b, acts, bound, normalizes) && SkipsAt(b[|b| - 1], j, bound)
    requires ValidHistory(h) && b[|b| - 1].history <= h
    ensures Behavior(b', acts', bound, normalizes) && SkipsAt(b'[|b'| - 1], j, bound) && b'[|b'| - 1].history == h
    decreases |h| - |b[|b| - 1].history|
  {
    b', acts' := b, acts;
    var s := b[|b| - 1];
    var n := |s.history|;
    if n < |h| {
      var a := Post(h[n]);
      HistoryPrefix(h, n + 1);
      assert h[..n + 1] == s.history + [h[n]];
      BehaviorSnoc(b, acts, a, bound, normalizes);
      b', acts' := PostRest(b + [Apply(s, a)], acts + [a], h, j, bound, normalizes);
    } else {
      assert s.history == h;
    }
  }

  lemma OneAnswer(c: Candidate, reply: Reply)
    requires reply == Answers([Answer(c.externalId, Imported)])
    ensures CountBatch(EMPTY, [c], reply, ByExternalId([c])) == Tally(1, 0, 0, [c], NoFailure)
  {
    assert [c][..0] == [];
    assert ByExternalId([c]) == map[c.externalId := c];
    assert reply.items[1..] == [];
    assert CountAll(EMPTY, reply.items, ByExternalId([c])) == Tally(1, 0, 0, [] + [c], NoFailure);
    assert reply.items[0] in reply.items;
    assert Mentions(reply.items, c.externalId);
  }

  function JumpState(h: seq<Entry>, c: Checkpoint, answered: set<int>, x: Run): State {
    State(h, c, answered, map[0 := x])
  }

  function JumpRun(h: seq<Entry>, e: Entry, bound: Instant, to: Instant): Run {
    Importing(bound, to, 0, 1, h, [CandidateOf(e)], 0, EMPTY)
  }

  function JumpReply(e: Entry): Reply {
    Answers([Answer(CandidateOf(e).externalId, Imported)])
  }

  lemma JumpImports(h: seq<Entry>, e: Entry, bound: Instant, to: Instant)
    ensures Apply(JumpState(h, NoCheckpoint, {}, JumpRun(h, e, bound, to)), Import(0, JumpReply(e)))
         == JumpState(h, NoCheckpoint, {e.id},
                      JumpRun(h, e, bound, to).(start := 1, tally := Tally(1, 0, 0, [CandidateOf(e)], NoFailure)))
  {
    var c, reply := CandidateOf(e), JumpReply(e);
    OneAnswer(c, reply);
    assert [c][0..1] == [c];
    assert AnsweredIds(reply) == {e.id} by {
      assert reply.items[0] in reply.items;
    }
  }

  /** One complete run that reads and imports the single entry e. */
  lemma JumpingRun(h: seq<Entry>, e: Entry, bound: Instant, normalizes: Entry -> bool, to: Instant)
    returns (b: seq<State>, acts: seq<Action>)
    requires ValidHistory(h) && ReadResult(h, bound, to, 0, 1) == [e] && normalizes(e)
    ensures Behavior(b, acts, bound, normalizes)
    ensures b[|b| - 1] == JumpState(h, At(e.id, Second(e.date)), {e.id}, Done)
  {
    hide ReadResult, CountBatch, ValidHistory, AnsweredIds, JumpReply;
    var begin, read, imp, finish := Begin(0, bound, to, 1), Read(0), Import(0, JumpReply(e)), Finish(0);
    var s1 := JumpState(h, NoCheckpoint, {}, Ready(bound, to, 0, 1));
    var s2 := JumpState(h, NoCheckpoint, {}, JumpRun(h, e, bound, to));
    b, acts := [State(h, NoCheckpoint, {}, map[])], [];
    BehaviorSnoc(b, acts, begin, bound, normalizes);
    assert Apply(b[0], begin) == s1;
    b, acts := b + [s1], acts + [begin];
    BehaviorSnoc(b, acts, read, bound, normalizes);
    assert Apply(s1, read) == s2 by {
      assert CandidatesOf([e]) == [CandidateOf(e)];
    }
    b, acts := b + [s2], acts + [read];
    BehaviorSnoc(b, acts, imp, bound, normalizes);
    JumpImports(h, e, bound, to);
    var s3 := Apply(s2, imp);
    b, acts := b + [s3], acts + [imp];
    BehaviorSnoc(b, acts, finish, bound, normalizes);
    b, acts := b + [Apply(s3, finish)], acts + [finish];
  }

  lemma GapBeforeText(h: seq<Entry>, j: nat, i: nat, k: nat, bound: Instant, normalizes: Entry -> bool)
    requires ValidHistory(h) && DangerousAt(h, j, i, k, bound, normalizes)
    ensures ValidHistory(h[..k + 1]) && DangerousAt(h[..k + 1], j, i, k, bound, normalizes)
  {
    HistoryPrefix(h, k + 1);
    var early := h[..k + 1];
    assert early[j] == h[j] && early[k] == h[k];
    assert ServiceRun(early, i) by {
      forall x | i <= x < i + PAGE_LIMIT ensures early[x].Service? {
        assert h[x].Service?;
      }
    }
  }

  lemma SkipsIsSkipped(s: State, j: nat, bound: Instant)
    requires SkipsAt(s, j, bound)
    ensures !NothingSkipped(s, bound)
  {
  }

  lemma JumpSkips(h: seq<Entry>, e: Entry, j: nat, bound: Instant)
    requires j < |h| && Relevant(h[j], bound) && h[j].id < e.id
    ensures SkipsAt(JumpState(h, At(e.id, Second(e.date)), {e.id}, Done), j, bound)
  {
  }

  /** A run that starts while the text message above the gap is the newest entry moves the checkpoint over the gap. */
  lemma GapLosesMessage(h: seq<Entry>, j: nat, i: nat, k: nat, bound: Instant, normalizes: Entry -> bool)
    returns (b: seq<State>, acts: seq<Action>)
    requires ValidHistory(h) && DangerousAt(h, j, i, k, bound, normalizes)
    ensures Behavior(b, acts, bound, normalizes) && b[|b| - 1].history == h && !NothingSkipped(b[|b| - 1], bound)
  {
    var early := h[..k + 1];
    GapBeforeText(h, j, i, k, bound, normalizes);
    ReadJumpsGap(early, j, i, bound, normalizes, early[k].date);
    var e := early[k];
    b, acts := JumpingRun(early, e, bound, normalizes, Second(early[k].date + 1));
    JumpSkips(early, e, j, bound);
    b, acts := PostRest(b, acts, h, j, bound, normalizes);
    SkipsIsSkipped(b[|b| - 1], j, bound);
  }

  /**
   The exact condition: over the behaviours that end with history h, nothing is ever skipped if and only if h has no
   relevant message below PAGE_LIMIT consecutive service entries above which the first text message is one that the
   pipeline accepts.
   */
  lemma NothingSkippedIffNoGap(h: seq<Entry>, bound: Instant, normalizes: Entry -> bool)
    requires ValidHistory(h)
    ensures !DangerousGap(h, bound, normalizes) <==>
              forall b: seq<State>, acts: seq<Action> ::
                Behavior(b, acts, bound, normalizes) && b[|b| - 1].history == h ==> NothingSkipped(b[|b| - 1], bound)
  {
    if DangerousGap(h, bound, normalizes) {
      var j: nat, i: nat, k: nat :| DangerousAt(h, j, i, k, bound, normalizes);
      var b, acts := GapLosesMessage(h, j, i, k, bound, normalizes);
    } else {
      forall b: seq<State>, acts: seq<Action> | Behavior(b, acts, bound, normalizes) && b[|b| - 1].history == h
        ensures NothingSkipped(b[|b| - 1], bound)
      {
        NoMessageSkipped(b, acts, bound, normalizes);
      }
    }
  }
}
