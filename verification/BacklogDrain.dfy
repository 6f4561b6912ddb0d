/**
 Consecutive non-manual runs over a channel that stands still: they hand on the backlog in chunks of the limit, oldest
 first, each message once, and leave the checkpoint at the last one, until a chunk holds a message that the pipeline
 rejects; there they stop for good.
 */
module BacklogDrain {
  import opened Instants
  import opened Sequences
  import opened TelegramReader
  import opened BatchImport
  import opened Checkpoints

  /** Publication range of a run and the answers of the tasks service to its batches. */
  datatype Pass = Pass(from: Instant, to: Instant, replies: nat -> Reply)

  /** What the reader returns. */
  function PassItems(h: seq<Entry>, c: Checkpoint, r: Pass, limit: nat): seq<Entry> {
    ReadResult(h, RunFrom(c, r.from), r.to, RunAfter(c), limit)
  }

  /** What is handed on: one item that the pipeline rejects fails the whole run before anything is sent. */
  function PassSent(h: seq<Entry>, c: Checkpoint, r: Pass, limit: nat, normalizes: Entry -> bool): seq<Entry> {
    var items := PassItems(h, c, r, limit);
    if AllNormalize(items, normalizes) then items else []
  }

  function PassTally(items: seq<Entry>, r: Pass): Tally {
    CountFrom(EMPTY, CandidatesOf(items), 0, 0, r.replies)
  }

  /** The checkpoint after an import: it moves when the import succeeded and accepted something. */
  function AfterImport(c: Checkpoint, t: Tally): Checkpoint {
    if t.failure == NoFailure && t.successful != [] then Upsert(c, Latest(t.successful)) else c
  }

  /** The checkpoint after a run; one that hands on nothing leaves it alone. */
  function AfterPass(h: seq<Entry>, c: Checkpoint, r: Pass, limit: nat, normalizes: Entry -> bool): Checkpoint {
    AfterImport(c, PassTally(PassSent(h, c, r, limit, normalizes), r))
  }

  /** What each run sends to the tasks service. */
  function Sent(h: seq<Entry>, c: Checkpoint, runs: seq<Pass>, limit: nat, normalizes: Entry -> bool): seq<seq<Entry>>
    decreases |runs|
  {
    if runs == [] then []
    else
      var next := AfterPass(h, c, runs[0], limit, normalizes);
      [PassSent(h, c, runs[0], limit, normalizes)] + Sent(h, next, runs[1..], limit, normalizes)
  }

  function FinalCheckpoint(h: seq<Entry>, c: Checkpoint, runs: seq<Pass>, limit: nat,
                           normalizes: Entry -> bool): Checkpoint
    decreases |runs|
  {
    if runs == [] then c
    else FinalCheckpoint(h, AfterPass(h, c, runs[0], limit, normalizes), runs[1..], limit, normalizes)
  }

  /** The tasks service takes every candidate that is sent, as new or as a duplicate. */
  predicate EverythingAccepted(h: seq<Entry>, c: Checkpoint, runs: seq<Pass>, limit: nat, normalizes: Entry -> bool)
    decreases |runs|
  {
    runs == [] ||
    (var t := PassTally(PassSent(h, c, runs[0], limit, normalizes), runs[0]);
     t.failure == NoFailure && t.invalid == 0 && EverythingAccepted(h, AfterImport(c, t), runs[1..], limit, normalizes))
  }

  // ----- The backlog -----

  /** A text message above the checkpoint; without one, a text message not older than `from`. */
  predicate Pending(e: Entry, c: Checkpoint, from: Instant) {
    Text(e) && if c.At? then e.id > c.id else AtMost(from, Second(e.date))
  }

  function Backlog(h: seq<Entry>, c: Checkpoint, from: Instant): seq<Entry> {
    Filter(h, (e: Entry) => Pending(e, c, from))
  }

  /** The checkpoint, if any, is an entry of the history. */
  ghost predicate CheckpointIn(h: seq<Entry>, c: Checkpoint) {
    c.At? ==> exists i :: 0 <= i < |h| && h[i].id == c.id && Second(h[i].date) == c.publishedAt
  }

  /** PAGE_LIMIT consecutive service entries stand above a pending message. */
  ghost predicate Buried(h: seq<Entry>, c: Checkpoint, from: Instant) {
    exists j: nat, i: nat :: j < i && ServiceRun(h, i) && Pending(h[j], c, from)
  }

  ghost predicate RangesCover(h: seq<Entry>, from: Instant, runs: seq<Pass>) {
    forall k :: 0 <= k < |runs| ==> AtMost(from, runs[k].from) && EndsAfter(h, runs[k].to)
  }

  ghost predicate EndsAfter(h: seq<Entry>, to: Instant) {
    forall i :: 0 <= i < |h| ==> h[i].date < to.Floor
  }

  // ----- One run -----

  lemma AboveCheckpoint(h: seq<Entry>, c: Checkpoint, k: nat)
    requires ValidHistory(h) && CheckpointIn(h, c) && c.At? && k < |h| && h[k].id > c.id
    ensures AtMost(c.publishedAt, Second(h[k].date)) && c.id > 0
  {
    var i :| 0 <= i < |h| && h[i].id == c.id && Second(h[i].date) == c.publishedAt;
    if k < i {
      HistoryOrder(h, k, i);
    } else {
      HistoryOrder(h, i, k);
    }
  }

  /** Within the range of the run, eligible and pending are the same. */
  lemma EligibleIsPending(h: seq<Entry>, c: Checkpoint, r: Pass, k: nat)
    requires ValidHistory(h) && CheckpointIn(h, c) && k < |h| && EndsAfter(h, r.to)
    ensures Eligible(h[k], RunFrom(c, r.from), FloorSecond(r.to), RunAfter(c)) <==> Pending(h[k], c, r.from)
    ensures Eligible(h[k], RunFrom(c, r.from), r.to, RunAfter(c)) ==> Pending(h[k], c, r.from)
  {
    HistoryOrder(h, k, k);
    if c.At? && h[k].id > c.id {
      AboveCheckpoint(h, c, k);
    }
  }

  lemma NothingHiddenFromPass(h: seq<Entry>, c: Checkpoint, r: Pass)
    requires ValidHistory(h) && CheckpointIn(h, c) && EndsAfter(h, r.to) && !Buried(h, c, r.from)
    ensures !Hidden(h, RunFrom(c, r.from), r.to, RunAfter(c))
  {
    var w := Window(h, 0, r.to.Floor, RunAfter(c));
    var lo := WindowIsSlice(h, r.to.Floor, RunAfter(c));
    forall i: nat, j: nat | j < i && ServiceRun(w, i) ensures !Eligible(w[j], RunFrom(c, r.from), r.to, RunAfter(c)) {
      assert ServiceRun(h, lo + i) by {
        forall x | lo + i <= x < lo + i + PAGE_LIMIT ensures h[x].Service? {
          assert w[x - lo].Service?;
        }
      }
      EligibleIsPending(h, c, r, lo + j);
    }
  }

  /** A run reads the oldest pending messages, and hands them on unless the pipeline rejects one. */
  lemma PassTakesOldest(h: seq<Entry>, c: Checkpoint, r: Pass, limit: nat, normalizes: Entry -> bool)
    requires ValidHistory(h) && CheckpointIn(h, c) && EndsAfter(h, r.to) && !Buried(h, c, r.from)
    ensures var oldest := Take(Backlog(h, c, r.from), limit);
            && PassItems(h, c, r, limit) == oldest
            && PassSent(h, c, r, limit, normalizes) == if AllNormalize(oldest, normalizes) then oldest else []
  {
    NothingHiddenFromPass(h, c, r);
    ReadWholeSeconds(h, RunFrom(c, r.from), r.to, RunAfter(c), limit);
    forall e | e in h
      ensures Eligible(e, RunFrom(c, r.from), FloorSecond(r.to), RunAfter(c)) <==> Pending(e, c, r.from)
    {
      var k :| 0 <= k < |h| && h[k] == e;
      EligibleIsPending(h, c, r, k);
    }
    FilterCongruence(h, (e: Entry) => Eligible(e, RunFrom(c, r.from), FloorSecond(r.to), RunAfter(c)),
                     (e: Entry) => Pending(e, c, r.from));
  }

  // ----- Everything accepted -----

  lemma {:induction false} AnswersAccepted(t: Tally, answers: seq<Answer>, known: map<ExternalId, Candidate>)
    requires t.failure == NoFailure
    requires var u := CountAll(t, answers, known); u.failure == NoFailure
    ensures var u := CountAll(t, answers, known);
            && u.invalid >= t.invalid
            && (forall c :: c in t.successful ==> c in u.successful)
            && (u.invalid == t.invalid ==>
                  forall a :: a in answers ==> a.externalId in known && known[a.externalId] in u.successful)
    decreases |answers|
  {
    if answers != [] {
      var next := Count(t, answers[0], known);
      CountAllFailed(next, answers[1..], known);
      AnswersAccepted(next, answers[1..], known);
      assert answers == [answers[0]] + answers[1..];
    }
  }

  lemma BatchAccepted(t: Tally, batch: seq<Candidate>, reply: Reply, known: map<ExternalId, Candidate>)
    requires t.failure == NoFailure && CountBatch(t, batch, reply, known).failure == NoFailure
    requires forall c :: c in batch ==> c.externalId in known && known[c.externalId] == c
    ensures var u := CountBatch(t, batch, reply, known);
            && u.invalid >= t.invalid
            && (forall c :: c in t.successful ==> c in u.successful)
            && (u.invalid == t.invalid ==> forall c :: c in batch ==> c in u.successful)
  {
    AnswersAccepted(t, reply.items, known);
    forall c | c in batch && CountBatch(t, batch, reply, known).invalid == t.invalid
      ensures c in CountBatch(t, batch, reply, known).successful
    {
      assert Mentions(reply.items, c.externalId);
    }
  }

  ghost predicate DistinctIds(candidates: seq<Candidate>) {
    forall i, j :: 0 <= i < j < |candidates| ==> candidates[i].externalId != candidates[j].externalId
  }

  lemma KnownAsIs(candidates: seq<Candidate>, c: Candidate)
    requires DistinctIds(candidates) && c in candidates
    ensures c.externalId in ByExternalId(candidates) && ByExternalId(candidates)[c.externalId] == c
  {
    var known := ByExternalId(candidates);
    assert known[c.externalId] in candidates;
  }

  /** With no failure and nothing invalid, every candidate is among the accepted. */
  lemma {:induction false} AllAccepted(t: Tally, candidates: seq<Candidate>, start: nat, k: nat, replies: nat -> Reply)
    requires DistinctIds(candidates) && start <= |candidates| && t.failure == NoFailure
    requires CountFrom(t, candidates, start, k, replies).failure == NoFailure
    ensures var u := CountFrom(t, candidates, start, k, replies);
            && u.invalid >= t.invalid
            && (forall c :: c in t.successful ==> c in u.successful)
            && (u.invalid == t.invalid ==> forall i :: start <= i < |candidates| ==> candidates[i] in u.successful)
    decreases |candidates| - start
  {
    if start < |candidates| {
      var end, known := BatchEnd(candidates, start), ByExternalId(candidates);
      var batch := candidates[start..end];
      var next := CountBatch(t, batch, replies(k), known);
      FailureIsFinal(next, candidates, end, k + 1, replies);
      forall c | c in batch ensures c.externalId in known && known[c.externalId] == c {
        KnownAsIs(candidates, c);
      }
      BatchAccepted(t, batch, replies(k), known);
      AllAccepted(next, candidates, end, k + 1, replies);
      forall i | start <= i < end ensures candidates[i] in batch {
        assert batch[i - start] == candidates[i];
      }
    }
  }

  /** A run whose candidates are all accepted moves the checkpoint to its last item. */
  lemma CheckpointAtLast(c: Checkpoint, items: seq<Entry>, r: Pass)
    requires Increasing(items, Id) && items != []
    requires PassTally(items, r).failure == NoFailure && PassTally(items, r).invalid == 0
    requires c.At? ==> c.id < items[|items| - 1].id
    ensures AfterImport(c, PassTally(items, r)) == At(items[|items| - 1].id, Second(items[|items| - 1].date))
  {
    var candidates, t, n := CandidatesOf(items), PassTally(items, r), |items|;
    assert DistinctIds(candidates) by {
      forall i, j | 0 <= i < j < n ensures candidates[i].externalId != candidates[j].externalId {
        assert Id(items[i]) < Id(items[j]);
      }
    }
    AllAccepted(EMPTY, candidates, 0, 0, r.replies);
    AcceptedAreImportedOrDuplicate(EMPTY, candidates, 0, 0, r.replies);
    assert candidates[n - 1] in t.successful;
    var latest := Latest(t.successful);
    assert latest in candidates;
    var i :| 0 <= i < n && candidates[i] == latest;
    assert i < n - 1 ==> Id(items[i]) < Id(items[n - 1]);
  }

  // ----- From run to run -----

  lemma {:induction false} FilterDrop<T(!new)>(s: seq<T>, p: T -> bool, n: nat)
    requires n <= |s| && forall i :: 0 <= i < |s| ==> (p(s[i]) <==> n <= i)
    ensures Filter(s, p) == s[n..]
  {
    if n < |s| {
      FilterDrop(s[..|s| - 1], p, n);
      assert s[n..] == s[..|s| - 1][n..] + [s[|s| - 1]];
    } else {
      FilterNone(s, p);
    }
  }

  lemma BacklogIncreasing(h: seq<Entry>, c: Checkpoint, from: Instant)
    requires ValidHistory(h)
    ensures Increasing(Backlog(h, c, from), Id)
  {
    HistoryIncreasing(h);
    FilterIncreasing(h, (e: Entry) => Pending(e, c, from), Id);
  }

  /** Pending after the checkpoint moved to h[k] is pending before, with a larger ID. */
  lemma StillPending(h: seq<Entry>, c: Checkpoint, from: Instant, k: nat, e: Entry)
    requires ValidHistory(h) && k < |h| && e in h && Pending(h[k], c, from)
    ensures Pending(e, At(h[k].id, Second(h[k].date)), from) <==> Pending(e, c, from) && e.id > h[k].id
  {
    var i :| 0 <= i < |h| && h[i] == e;
    if k <= i {
      HistoryOrder(h, k, i);
    } else {
      HistoryOrder(h, i, k);
    }
  }

  lemma BacklogAfter(h: seq<Entry>, c: Checkpoint, from: Instant, n: nat)
    requires ValidHistory(h) && 0 < n <= |Backlog(h, c, from)|
    ensures var all := Backlog(h, c, from);
            var next := At(all[n - 1].id, Second(all[n - 1].date));
            CheckpointIn(h, next) && Backlog(h, next, from) == all[n..]
  {
    hide ValidHistory, Filter, Pending;
    var all := Backlog(h, c, from);
    var last := all[n - 1];
    assert last in h;
    var k :| 0 <= k < |h| && h[k] == last;
    var next := At(last.id, Second(last.date));
    forall e | e in h ensures Pending(e, next, from) <==> Pending(e, c, from) && e.id > last.id {
      StillPending(h, c, from, k, e);
    }
    FilterFilter(h, (e: Entry) => Pending(e, c, from), (e: Entry) => e.id > last.id,
                 (e: Entry) => Pending(e, next, from));
    BacklogIncreasing(h, c, from);
    forall i | 0 <= i < |all| ensures all[i].id > last.id <==> n <= i {
      assert i < n - 1 ==> Id(all[i]) < Id(last);
      assert n - 1 < i ==> Id(last) < Id(all[i]);
    }
    FilterDrop(all, (e: Entry) => e.id > last.id, n);
  }

  // ----- All runs -----

  function Drop<T>(s: seq<T>, n: nat): seq<T> {
    if |s| <= n then [] else s[n..]
  }

  /** The first m consecutive chunks of `limit` elements. */
  function Chunks<T>(s: seq<T>, limit: nat, m: nat): seq<seq<T>>
    decreases m
  {
    if m == 0 then [] else [Take(s, limit)] + Chunks(Drop(s, limit), limit, m - 1)
  }

  function Concat<T>(parts: seq<seq<T>>): seq<T> {
    if parts == [] then [] else parts[0] + Concat(parts[1..])
  }

  lemma {:induction false} ConcatChunks<T>(s: seq<T>, limit: nat, m: nat)
    ensures Concat(Chunks(s, limit, m)) == Take(s, m * limit)
    decreases m
  {
    if m == 0 {
      assert Take(s, 0) == [];
    } else {
      ConcatChunks(Drop(s, limit), limit, m - 1);
      OneMore(m, limit);
      TakeTake(s, limit, (m - 1) * limit);
      ConcatFirst(Take(s, limit), Chunks(Drop(s, limit), limit, m - 1));
    }
  }

  lemma OneMore(m: nat, limit: nat)
    requires m > 0
    ensures m * limit == limit + (m - 1) * limit && (m - 1) * limit >= 0
  {
  }

  lemma ConcatFirst<T>(first: seq<T>, rest: seq<seq<T>>)
    ensures Concat([first] + rest) == first + Concat(rest)
  {
    assert ([first] + rest)[1..] == rest;
  }

  lemma TakeTake<T>(s: seq<T>, a: nat, b: nat)
    ensures Take(s, a) + Take(Drop(s, a), b) == Take(s, a + b)
  {
  }

  /** The checkpoint once `sent` has been handed on. */
  function Reached(c: Checkpoint, sent: seq<Entry>): Checkpoint {
    if sent == [] then c else At(sent[|sent| - 1].id, Second(sent[|sent| - 1].date))
  }

  /**
   Without a checkpoint the next run starts where the backlog does; so do all runs when none gets past the first chunk.
   */
  ghost predicate Aligned(h: seq<Entry>, c: Checkpoint, from: Instant, runs: seq<Pass>, limit: nat,
                          normalizes: Entry -> bool)
  {
    var all := Backlog(h, c, from);
    c.NoCheckpoint? && all != [] ==>
      forall k :: 0 <= k < |runs| && (k == 0 || !AllNormalize(Take(all, limit), normalizes)) ==> runs[k].from == from
  }

  lemma PassTakesBacklog(h: seq<Entry>, c: Checkpoint, from: Instant, runs: seq<Pass>, limit: nat,
                         normalizes: Entry -> bool)
    requires ValidHistory(h) && CheckpointIn(h, c) && !Buried(h, c, from)
    requires runs != [] && RangesCover(h, from, runs) && Aligned(h, c, from, runs, limit, normalizes)
    ensures PassItems(h, c, runs[0], limit) == Take(Backlog(h, c, from), limit)
  {
    var r := runs[0];
    forall e | e in h ensures Pending(e, c, r.from) <==> Pending(e, c, from) {
      if c.NoCheckpoint? && Backlog(h, c, from) == [] {
        assert !Pending(e, c, from) by {
          assert e !in Backlog(h, c, from);
        }
        assert AtMost(from, r.from);
      }
    }
    FilterCongruence(h, (e: Entry) => Pending(e, c, r.from), (e: Entry) => Pending(e, c, from));
    assert !Buried(h, c, r.from) by {
      forall j: nat, i: nat | j < i && ServiceRun(h, i) ensures !Pending(h[j], c, r.from) {
        assert h[j] in h;
      }
    }
    PassTakesOldest(h, c, r, limit, normalizes);
  }

  lemma BuriedBefore(h: seq<Entry>, c: Checkpoint, from: Instant, k: nat)
    requires ValidHistory(h) && k < |h| && Pending(h[k], c, from) && !Buried(h, c, from)
    ensures !Buried(h, At(h[k].id, Second(h[k].date)), from)
  {
    forall j: nat, i: nat | j < i && ServiceRun(h, i) ensures !Pending(h[j], At(h[k].id, Second(h[k].date)), from) {
      assert !Pending(h[j], c, from);
      StillPending(h, c, from, k, h[j]);
    }
  }

  /** The last item of a run that hands on something. */
  lemma LastItem(h: seq<Entry>, c: Checkpoint, from: Instant, items: seq<Entry>, limit: nat) returns (k: nat)
    requires ValidHistory(h) && limit >= 1 && Backlog(h, c, from) != [] && items == Take(Backlog(h, c, from), limit)
    ensures 0 < |items| <= |Backlog(h, c, from)| && items == Backlog(h, c, from)[..|items|]
    ensures Drop(Backlog(h, c, from), limit) == Backlog(h, c, from)[|items|..]
    ensures k < |h| && h[k] == items[|items| - 1] && Pending(h[k], c, from) && Increasing(items, Id)
  {
    BacklogIncreasing(h, c, from);
    var last := items[|items| - 1];
    assert last in Backlog(h, c, from);
    k :| 0 <= k < |h| && h[k] == last;
  }

  /** What a run that hands on something leaves for the next. */
  lemma AfterItems(h: seq<Entry>, c: Checkpoint, from: Instant, items: seq<Entry>, r: Pass, limit: nat)
    requires ValidHistory(h) && !Buried(h, c, from) && limit >= 1
    requires Backlog(h, c, from) != [] && items == Take(Backlog(h, c, from), limit)
    requires PassTally(items, r).failure == NoFailure && PassTally(items, r).invalid == 0
    ensures items != [] && AfterImport(c, PassTally(items, r)) == Reached(c, items)
    ensures CheckpointIn(h, Reached(c, items)) && !Buried(h, Reached(c, items), from)
    ensures Backlog(h, Reached(c, items), from) == Drop(Backlog(h, c, from), limit)
  {
    var k := LastItem(h, c, from, items, limit);
    CheckpointAtLast(c, items, r);
    BacklogAfter(h, c, from, |items|);
    BuriedBefore(h, c, from, k);
  }

  lemma AfterNothing(c: Checkpoint, r: Pass)
    ensures AfterImport(c, PassTally([], r)) == c
  {
  }

  /** One run over a chunk without a rejected message: what it hands on, the checkpoint it leaves, and what is left. */
  lemma OnePass(h: seq<Entry>, c: Checkpoint, from: Instant, runs: seq<Pass>, limit: nat, normalizes: Entry -> bool)
    requires ValidHistory(h) && CheckpointIn(h, c) && !Buried(h, c, from) && limit >= 1
    requires runs != [] && RangesCover(h, from, runs) && Aligned(h, c, from, runs, limit, normalizes)
    requires EverythingAccepted(h, c, runs, limit, normalizes)
    requires AllNormalize(Take(Backlog(h, c, from), limit), normalizes)
    ensures var sent, next := PassSent(h, c, runs[0], limit, normalizes), AfterPass(h, c, runs[0], limit, normalizes);
            && sent == Take(Backlog(h, c, from), limit) && next == Reached(c, sent)
            && Backlog(h, next, from) == Drop(Backlog(h, c, from), limit)
            && CheckpointIn(h, next) && !Buried(h, next, from) && Aligned(h, next, from, runs[1..], limit, normalizes)
  {
    hide ValidHistory, Buried, CheckpointIn, RangesCover, PassItems, PassTally, AfterImport, Backlog;
    var items := Take(Backlog(h, c, from), limit);
    PassTakesBacklog(h, c, from, runs, limit, normalizes);
    if Backlog(h, c, from) == [] {
      AfterNothing(c, runs[0]);
    } else {
      AfterItems(h, c, from, items, runs[0], limit);
    }
  }

  /** One run over a chunk with a rejected message: nothing is handed on, and the next run finds what this one found. */
  lemma StalledPass(h: seq<Entry>, c: Checkpoint, from: Instant, runs: seq<Pass>, limit: nat, normalizes: Entry -> bool)
    requires ValidHistory(h) && CheckpointIn(h, c) && !Buried(h, c, from)
    requires runs != [] && RangesCover(h, from, runs) && Aligned(h, c, from, runs, limit, normalizes)
    requires !AllNormalize(Take(Backlog(h, c, from), limit), normalizes)
    ensures PassSent(h, c, runs[0], limit, normalizes) == [] && AfterPass(h, c, runs[0], limit, normalizes) == c
    ensures Aligned(h, c, from, runs[1..], limit, normalizes)
  {
    hide ValidHistory, Buried, CheckpointIn, RangesCover, PassItems, PassTally, AfterImport, Backlog, AllNormalize;
    PassTakesBacklog(h, c, from, runs, limit, normalizes);
    AfterNothing(c, runs[0]);
  }

  lemma RestCovers(h: seq<Entry>, from: Instant, runs: seq<Pass>)
    requires runs != [] && RangesCover(h, from, runs)
    ensures RangesCover(h, from, runs[1..])
  {
    assert forall k :: 0 <= k < |runs[1..]| ==> runs[1..][k] == runs[k + 1];
  }

  // ----- How far the runs get -----

  /** How many of m runs hand on a chunk: those before the first chunk with a rejected message. */
  function FullPasses(s: seq<Entry>, limit: nat, m: nat, normalizes: Entry -> bool): (n: nat)
    ensures n <= m
    decreases m
  {
    if m == 0 || !AllNormalize(Take(s, limit), normalizes) then 0
    else 1 + FullPasses(Drop(s, limit), limit, m - 1, normalizes)
  }

  lemma DropMore<T>(s: seq<T>, a: nat, b: nat)
    ensures Drop(Drop(s, a), b) == Drop(s, a + b)
  {
  }

  lemma NormalizeBoth(a: seq<Entry>, b: seq<Entry>, normalizes: Entry -> bool)
    requires AllNormalize(a, normalizes) && AllNormalize(b, normalizes)
    ensures AllNormalize(a + b, normalizes)
  {
  }

  /** Nothing in the full chunks is rejected, and something in the chunk after them is unless the runs are used up. */
  lemma {:induction false} FullPassesMeaning(s: seq<Entry>, limit: nat, m: nat, normalizes: Entry -> bool)
    ensures var n := FullPasses(s, limit, m, normalizes);
            && AllNormalize(Take(s, n * limit), normalizes)
            && (n < m ==> !AllNormalize(Take(Drop(s, n * limit), limit), normalizes))
    decreases m
  {
    hide AllNormalize, Take, Drop;
    var n := FullPasses(s, limit, m, normalizes);
    if n == 0 {
      NoChunk(s, normalizes);
    } else {
      FullPassesMeaning(Drop(s, limit), limit, m - 1, normalizes);
      OneMore(n, limit);
      TakeTake(s, limit, (n - 1) * limit);
      NormalizeBoth(Take(s, limit), Take(Drop(s, limit), (n - 1) * limit), normalizes);
      DropMore(s, limit, (n - 1) * limit);
    }
  }

  lemma NoChunk(s: seq<Entry>, normalizes: Entry -> bool)
    ensures AllNormalize(Take(s, 0), normalizes) && Drop(s, 0) == s
  {
  }

  lemma {:induction false} EveryPassFull(s: seq<Entry>, limit: nat, m: nat, normalizes: Entry -> bool)
    requires AllNormalize(s, normalizes)
    ensures FullPasses(s, limit, m, normalizes) == m
    decreases m
  {
    if m > 0 {
      EveryPassFull(Drop(s, limit), limit, m - 1, normalizes);
    }
  }

  /** n runs that hand on nothing. */
  function Nothing(n: nat): (r: seq<seq<Entry>>)
    ensures |r| == n && forall k :: 0 <= k < n ==> r[k] == []
  {
    seq(n, k requires 0 <= k < n => [])
  }

  lemma {:induction false} ConcatNothing(n: nat)
    ensures Concat(Nothing(n)) == []
  {
    if n > 0 {
      ConcatNothing(n - 1);
      assert Nothing(n) == [[]] + Nothing(n - 1);
      ConcatFirst([], Nothing(n - 1));
    }
  }

  lemma {:induction false} ConcatBoth<T>(a: seq<seq<T>>, b: seq<seq<T>>)
    ensures Concat(a + b) == Concat(a) + Concat(b)
  {
    if a == [] {
      assert a + b == b;
    } else {
      ConcatBoth(a[1..], b);
      assert a + b == [a[0]] + (a[1..] + b);
      ConcatFirst(a[0], a[1..] + b);
    }
  }

  /** The chunks handed on in m runs. */
  function InChunks(all: seq<Entry>, limit: nat, m: nat, normalizes: Entry -> bool): seq<seq<Entry>> {
    var n := FullPasses(all, limit, m, normalizes);
    Chunks(all, limit, n) + Nothing(m - n)
  }

  lemma OneMoreRun(all: seq<Entry>, limit: nat, m: nat, normalizes: Entry -> bool)
    requires m >= 1
    ensures AllNormalize(Take(all, limit), normalizes) ==>
            InChunks(all, limit, m, normalizes)
            == [Take(all, limit)] + InChunks(Drop(all, limit), limit, m - 1, normalizes)
    ensures !AllNormalize(Take(all, limit), normalizes) ==>
            InChunks(all, limit, m, normalizes) == [[]] + InChunks(all, limit, m - 1, normalizes)
  {
    hide AllNormalize, Take, Drop;
    if AllNormalize(Take(all, limit), normalizes) {
      var n := FullPasses(all, limit, m, normalizes);
      assert Chunks(all, limit, n) == [Take(all, limit)] + Chunks(Drop(all, limit), limit, n - 1);
    } else {
      assert Nothing(m) == [[]] + Nothing(m - 1);
    }
  }

  lemma NoRuns(c: Checkpoint, all: seq<Entry>, limit: nat, normalizes: Entry -> bool)
    ensures InChunks(all, limit, 0, normalizes) == [] && Reached(c, Concat([])) == c
  {
  }

  lemma {:induction false} SentInChunks(h: seq<Entry>, c: Checkpoint, from: Instant, runs: seq<Pass>, limit: nat,
                                        normalizes: Entry -> bool)
    requires ValidHistory(h) && CheckpointIn(h, c) && !Buried(h, c, from) && limit >= 1
    requires RangesCover(h, from, runs) && Aligned(h, c, from, runs, limit, normalizes)
    requires EverythingAccepted(h, c, runs, limit, normalizes)
    ensures var sent := Sent(h, c, runs, limit, normalizes);
            && sent == InChunks(Backlog(h, c, from), limit, |runs|, normalizes)
            && FinalCheckpoint(h, c, runs, limit, normalizes) == Reached(c, Concat(sent))
    decreases |runs|
  {
    hide Backlog, Buried, CheckpointIn, RangesCover, Aligned, PassSent, PassTally, AfterImport, ValidHistory, Take,
        AllNormalize, EverythingAccepted, InChunks, Concat, Drop, Reached;
    var m := |runs|;
    var all := Backlog(h, c, from);
    if runs == [] {
      NoRuns(c, all, limit, normalizes);
    } else {
      var sent, next := PassSent(h, c, runs[0], limit, normalizes), AfterPass(h, c, runs[0], limit, normalizes);
      RestCovers(h, from, runs);
      RestAccepted(h, c, runs, limit, normalizes);
      if AllNormalize(Take(all, limit), normalizes) {
        OnePass(h, c, from, runs, limit, normalizes);
      } else {
        StalledPass(h, c, from, runs, limit, normalizes);
      }
      OneMoreRun(all, limit, m, normalizes);
      SentInChunks(h, next, from, runs[1..], limit, normalizes);
      ConcatFirst(sent, Sent(h, next, runs[1..], limit, normalizes));
      ReachedFurther(c, sent, Concat(Sent(h, next, runs[1..], limit, normalizes)));
    }
  }

  lemma RestAccepted(h: seq<Entry>, c: Checkpoint, runs: seq<Pass>, limit: nat, normalizes: Entry -> bool)
    requires runs != [] && EverythingAccepted(h, c, runs, limit, normalizes)
    ensures EverythingAccepted(h, AfterPass(h, c, runs[0], limit, normalizes), runs[1..], limit, normalizes)
  {
    hide PassSent, PassTally, AfterImport;
  }

  lemma ReachedFurther(c: Checkpoint, first: seq<Entry>, rest: seq<Entry>)
    ensures Reached(Reached(c, first), rest) == Reached(c, first + rest) && Reached(c, []) == c
  {
  }

  /** What n runs hand on at most. */
  function Capacity(n: nat, limit: nat): nat {
    n * limit
  }

  /**
   Backlog drain. The history stands still, every run ends after its newest entry, and the tasks service accepts
   everything it is sent; then consecutive runs with limit L hand on the backlog oldest first in chunks of L, each
   message once, up to the chunk with the first message that the pipeline rejects. The checkpoint stands at the last
   message handed on; without a rejected message, after n runs with n * L at least the size of the backlog, that is the
   newest message of it.
   */
  lemma BacklogDrains(h: seq<Entry>, c: Checkpoint, from: Instant, runs: seq<Pass>, limit: nat,
                      normalizes: Entry -> bool)
    requires ValidHistory(h) && CheckpointIn(h, c) && !Buried(h, c, from) && limit >= 1
    requires RangesCover(h, from, runs) && Aligned(h, c, from, runs, limit, normalizes)
    requires EverythingAccepted(h, c, runs, limit, normalizes)
    ensures var all, sent := Backlog(h, c, from), Sent(h, c, runs, limit, normalizes);
            var n := FullPasses(all, limit, |runs|, normalizes);
            && n <= |runs| && sent == Chunks(all, limit, n) + Nothing(|runs| - n)
            && Concat(sent) == Take(all, Capacity(n, limit)) && Increasing(all, Id)
            && FinalCheckpoint(h, c, runs, limit, normalizes) == Reached(c, Take(all, Capacity(n, limit)))
            && AllNormalize(Take(all, Capacity(n, limit)), normalizes)
            && (n < |runs| ==> !AllNormalize(Take(Drop(all, Capacity(n, limit)), limit), normalizes))
            && (AllNormalize(all, normalizes) && Capacity(|runs|, limit) >= |all| ==>
                  FinalCheckpoint(h, c, runs, limit, normalizes) == Reached(c, all))
  {
    hide Backlog, Buried, CheckpointIn, RangesCover, Aligned, EverythingAccepted, ValidHistory, Sent, FinalCheckpoint,
        Chunks, Concat, FullPasses, AllNormalize, Drop;
    var all := Backlog(h, c, from);
    var n := FullPasses(all, limit, |runs|, normalizes);
    SentInChunks(h, c, from, runs, limit, normalizes);
    ConcatBoth(Chunks(all, limit, n), Nothing(|runs| - n));
    ConcatNothing(|runs| - n);
    ConcatChunks(all, limit, n);
    FullPassesMeaning(all, limit, |runs|, normalizes);
    BacklogIncreasing(h, c, from);
    if AllNormalize(all, normalizes) {
      EveryPassFull(all, limit, |runs|, normalizes);
    }
  }

  // ----- A rejected message stops the drain -----

  /**
   While a message that the pipeline rejects is among the oldest `limit` pending ones, any number of runs hands on
   nothing, and the checkpoint stays, whatever the tasks service would have answered.
   */
  lemma {:induction false} RejectedMessageStalls(h: seq<Entry>, c: Checkpoint, from: Instant, runs: seq<Pass>,
                                                 limit: nat, normalizes: Entry -> bool, e: Entry)
    requires ValidHistory(h) && CheckpointIn(h, c) && !Buried(h, c, from)
    requires RangesCover(h, from, runs) && Aligned(h, c, from, runs, limit, normalizes)
    requires e in Take(Backlog(h, c, from), limit) && !normalizes(e)
    ensures Sent(h, c, runs, limit, normalizes) == Nothing(|runs|)
    ensures FinalCheckpoint(h, c, runs, limit, normalizes) == c
    decreases |runs|
  {
    hide Backlog, Buried, CheckpointIn, RangesCover, Aligned, PassSent, AfterPass, ValidHistory, Take;
    if runs != [] {
      RestCovers(h, from, runs);
      StalledPass(h, c, from, runs, limit, normalizes);
      RejectedMessageStalls(h, c, from, runs[1..], limit, normalizes, e);
      assert Nothing(|runs|) == [[]] + Nothing(|runs| - 1);
    }
  }

  /** Whatever is handed on was accepted by the pipeline. */
  lemma {:induction false} SentNormalizes(h: seq<Entry>, c: Checkpoint, runs: seq<Pass>, limit: nat,
                                          normalizes: Entry -> bool)
    ensures AllNormalize(Concat(Sent(h, c, runs, limit, normalizes)), normalizes)
    decreases |runs|
  {
    hide PassItems, AfterPass;
    if runs != [] {
      var next := AfterPass(h, c, runs[0], limit, normalizes);
      SentNormalizes(h, next, runs[1..], limit, normalizes);
      ConcatFirst(PassSent(h, c, runs[0], limit, normalizes), Sent(h, next, runs[1..], limit, normalizes));
    }
  }

  // ----- A buried message is never handed on -----

  lemma IndexById(h: seq<Entry>, i: nat, k: nat)
    requires ValidHistory(h) && i < |h| && k < |h| && h[i].id == h[k].id
    ensures i == k
  {
    if i < k {
      HistoryOrder(h, i, k);
    } else if k < i {
      HistoryOrder(h, k, i);
    }
  }

  lemma RunOfSlice(h: seq<Entry>, w: seq<Entry>, lo: nat, i: nat)
    requires lo <= i && i + PAGE_LIMIT <= lo + |w| <= |h| && w == h[lo..lo + |w|] && ServiceRun(h, i)
    ensures ServiceRun(w, i - lo)
  {
    forall n | i - lo <= n < i - lo + PAGE_LIMIT ensures w[n].Service? {
      assert h[lo + n].Service?;
    }
  }

  lemma PlaceInWindow(h: seq<Entry>, w: seq<Entry>, lo: nat, i: nat, to: Instant, afterId: int)
    requires ValidHistory(h) && i < |h| && EndsAfter(h, to) && h[i].id > afterId
    requires w == Window(h, 0, to.Floor, afterId) && lo + |w| <= |h| && w == h[lo..lo + |w|]
    ensures lo <= i < lo + |w|
  {
    var x := InWindow(h, i, to.Floor, afterId);
    IndexById(h, lo + x, i);
  }

  /** A visible entry below a service run is below the horizon of a run that ends after everything. */
  lemma BelowHorizon(h: seq<Entry>, w: seq<Entry>, lo: nat, j: nat, i: nat, to: Instant, afterId: int)
    requires ValidHistory(h) && j < i && ServiceRun(h, i) && EndsAfter(h, to) && h[j].id > afterId
    requires w == Window(h, 0, to.Floor, afterId) && lo + |w| <= |h| && w == h[lo..lo + |w|]
    ensures j < lo + Horizon(w)
  {
    var top := i + PAGE_LIMIT - 1;
    HistoryOrder(h, j, top);
    PlaceInWindow(h, w, lo, j, to, afterId);
    PlaceInWindow(h, w, lo, top, to, afterId);
    RunOfSlice(h, w, lo, i);
  }

  /** What a run returns stands above its horizon. */
  lemma PlaceOfItem(h: seq<Entry>, w: seq<Entry>, lo: nat, j: nat, from: Instant, to: Instant, afterId: int, limit: nat)
    requires ValidHistory(h) && j < |h| && lo + |w| <= |h| && w == h[lo..lo + |w|]
    requires h[j] in OldestEligible(w[Horizon(w)..], from, to, afterId, limit)
    ensures lo + Horizon(w) <= j && h[j].id > afterId
  {
    hide OldestEligible, Horizon, ValidHistory;
    var z := ReadAboveHorizon(w, from, to, afterId, limit, h[j]);
    IndexById(h, lo + z, j);
  }

  lemma BuriedNotRead(h: seq<Entry>, j: nat, i: nat, from: Instant, to: Instant, afterId: int, limit: nat)
    requires ValidHistory(h) && j < i && ServiceRun(h, i) && EndsAfter(h, to)
    ensures h[j] !in ReadResult(h, from, to, afterId, limit)
  {
    var w := Window(h, 0, to.Floor, afterId);
    var lo := WindowIsSlice(h, to.Floor, afterId);
    if h[j] in ReadResult(h, from, to, afterId, limit) {
      PlaceOfItem(h, w, lo, j, from, to, afterId, limit);
      BelowHorizon(h, w, lo, j, i, to, afterId);
    }
  }

  lemma {:induction false} BuriedNeverSent(h: seq<Entry>, j: nat, i: nat, c: Checkpoint, runs: seq<Pass>, limit: nat,
                                           normalizes: Entry -> bool)
    requires ValidHistory(h) && j < i && ServiceRun(h, i)
    requires forall k :: 0 <= k < |runs| ==> EndsAfter(h, runs[k].to)
    ensures h[j] !in Concat(Sent(h, c, runs, limit, normalizes))
    decreases |runs|
  {
    hide ValidHistory, ServiceRun, EndsAfter, AfterPass, ReadResult, RunFrom;
    if runs != [] {
      BuriedNotRead(h, j, i, RunFrom(c, runs[0].from), runs[0].to, RunAfter(c), limit);
      var next, rest := AfterPass(h, c, runs[0], limit, normalizes), runs[1..];
      assert forall k :: 0 <= k < |rest| ==> rest[k] == runs[k + 1];
      BuriedNeverSent(h, j, i, next, rest, limit, normalizes);
      ConcatFirst(PassSent(h, c, runs[0], limit, normalizes), Sent(h, next, rest, limit, normalizes));
    }
  }

  /**
   Enough runs hand on the whole backlog if and only if no pending message is buried under service entries and the
   pipeline rejects none.
   */
  lemma BacklogDrainsIffNothingBuriedOrRejected(h: seq<Entry>, c: Checkpoint, from: Instant, runs: seq<Pass>,
                                                limit: nat, normalizes: Entry -> bool)
    requires ValidHistory(h) && CheckpointIn(h, c) && limit >= 1 && Capacity(|runs|, limit) >= |Backlog(h, c, from)|
    requires RangesCover(h, from, runs) && Aligned(h, c, from, runs, limit, normalizes)
    requires EverythingAccepted(h, c, runs, limit, normalizes)
    ensures Concat(Sent(h, c, runs, limit, normalizes)) == Backlog(h, c, from)
       <==> !Buried(h, c, from) && forall e :: e in h && Pending(e, c, from) ==> normalizes(e)
  {
    hide ValidHistory, CheckpointIn, Aligned, EverythingAccepted, Sent, Concat, Pending, FullPasses;
    if Concat(Sent(h, c, runs, limit, normalizes)) == Backlog(h, c, from) {
      SentNormalizes(h, c, runs, limit, normalizes);
      forall e | e in h && Pending(e, c, from) ensures normalizes(e) {
        assert e in Backlog(h, c, from);
      }
      if Buried(h, c, from) {
        var j: nat, i: nat :| j < i && ServiceRun(h, i) && Pending(h[j], c, from);
        assert h[j] in Backlog(h, c, from);
        BuriedNeverSent(h, j, i, c, runs, limit, normalizes);
      }
    }
    if !Buried(h, c, from) && forall e :: e in h && Pending(e, c, from) ==> normalizes(e) {
      assert AllNormalize(Backlog(h, c, from), normalizes);
      BacklogDrains(h, c, from, runs, limit, normalizes);
      EveryPassFull(Backlog(h, c, from), limit, |runs|, normalizes);
    }
  }
}
