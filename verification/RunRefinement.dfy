/**
 The source method and the transition system of one channel agree: the import steps of a run add up to the tally of
 importCandidates, and whatever processSource does to the checkpoint is the work of one run.
 */
module RunRefinement {
  import opened Instants
  import opened Options
  import opened TelegramReader
  import opened BatchImport
  import opened Checkpoints
  import opened BacklogDrain
  import opened SourceRun
  import Q = QueueStore

  // ----- From the steps to the tally -----

  /** The replies to the batches of run r since its Read. */
  ghost function RepliesSoFar(acts: seq<Action>, r: nat, n: nat): seq<Reply>
    requires n <= |acts|
  {
    if n == 0 || acts[n - 1] == Action.Read(r) then []
    else if acts[n - 1].Import? && acts[n - 1].run == r then RepliesSoFar(acts, r, n - 1) + [acts[n - 1].reply]
    else RepliesSoFar(acts, r, n - 1)
  }

  ghost predicate Extends(replies: nat -> Reply, s: seq<Reply>) {
    forall k :: 0 <= k < |s| ==> replies(k) == s[k]
  }

  /** What is left to count gives the tally of the whole import. */
  ghost predicate AddsUp(x: Checkpoints.Run, s: seq<Reply>, replies: nat -> Reply) {
    x.Importing? && Extends(replies, s) ==>
      && x.tally.failure == NoFailure
      && x.candidates == CandidatesOf(ReadResult(x.seen, x.from, x.to, x.afterId, x.limit))
      && CountFrom(EMPTY, x.candidates, 0, 0, replies) == CountFrom(x.tally, x.candidates, x.start, |s|, replies)
  }

  lemma ReadAddsUp(s: State, r: nat, replies: nat -> Reply)
    requires r in s.runs && s.runs[r].Ready?
    ensures r in Apply(s, Action.Read(r)).runs && AddsUp(Apply(s, Action.Read(r)).runs[r], [], replies)
  {
    hide ReadResult, CountFrom;
  }

  lemma ImportAddsUp(s: State, r: nat, reply: Reply, soFar: seq<Reply>, replies: nat -> Reply)
    requires r in s.runs && s.runs[r].Importing? && s.runs[r].start < |s.runs[r].candidates|
    requires AddsUp(s.runs[r], soFar, replies)
    ensures r in Apply(s, Action.Import(r, reply)).runs
    ensures AddsUp(Apply(s, Action.Import(r, reply)).runs[r], soFar + [reply], replies)
  {
    hide ReadResult, CountBatch, ByExternalId, AnsweredIds;
    if Extends(replies, soFar + [reply]) {
      assert forall k :: 0 <= k < |soFar| ==> soFar[k] == (soFar + [reply])[k];
      assert Extends(replies, soFar);
      assert replies(|soFar|) == (soFar + [reply])[|soFar|];
    }
  }

  /** Steps of other runs, and posts, leave run r alone; so does its own Begin, before which there is nothing. */
  lemma OtherSteps(s: State, a: Action, r: nat, bound: Instant, normalizes: Entry -> bool)
    requires Enabled(s, a, bound, normalizes) && a != Action.Read(r) && !(a.Import? && a.run == r)
    requires r in Apply(s, a).runs && Apply(s, a).runs[r].Importing?
    ensures r in s.runs && Apply(s, a).runs[r] == s.runs[r]
  {
    hide ReadResult, CountBatch, Latest;
  }

  lemma {:induction false} StepsAddUp(b: seq<State>, acts: seq<Action>, bound: Instant, normalizes: Entry -> bool,
                                      r: nat, n: nat,
                                      replies: nat -> Reply)
    requires Behavior(b, acts, bound, normalizes) && n <= |acts| && r in b[n].runs
    ensures AddsUp(b[n].runs[r], RepliesSoFar(acts, r, n), replies)
  {
    hide AddsUp, Enabled, Apply;
    if n > 0 && b[n].runs[r].Importing? {
      var s, a := b[n - 1], acts[n - 1];
      assert Enabled(s, a, bound, normalizes) && b[n] == Apply(s, a);
      if a == Action.Read(r) {
        EnabledRun(s, a, bound, normalizes);
        ReadAddsUp(s, r, replies);
      } else if a.Import? && a.run == r {
        EnabledRun(s, a, bound, normalizes);
        StepsAddUp(b, acts, bound, normalizes, r, n - 1, replies);
        ImportAddsUp(s, r, a.reply, RepliesSoFar(acts, r, n - 1), replies);
      } else {
        OtherSteps(s, a, r, bound, normalizes);
        StepsAddUp(b, acts, bound, normalizes, r, n - 1, replies);
      }
    } else {
      NotImporting(b[n], r, RepliesSoFar(acts, r, n), replies, n == 0);
    }
  }

  lemma EnabledRun(s: State, a: Action, bound: Instant, normalizes: Entry -> bool)
    requires Enabled(s, a, bound, normalizes)
    ensures a.Read? ==> a.run in s.runs && s.runs[a.run].Ready?
    ensures a.Import? ==>
            a.run in s.runs && s.runs[a.run].Importing? && s.runs[a.run].start < |s.runs[a.run].candidates|
    ensures a.Finish? ==>
            a.run in s.runs && s.runs[a.run].Importing? && s.runs[a.run].start >= |s.runs[a.run].candidates|
  {
  }

  lemma NotImporting(s: State, r: nat, soFar: seq<Reply>, replies: nat -> Reply, first: bool)
    requires r in s.runs && (!s.runs[r].Importing? || (first && Init(s)))
    ensures AddsUp(s.runs[r], soFar, replies)
  {
  }

  /** The replies of a finished run as a function of the number of calls before. */
  function ReplyAt(s: seq<Reply>): nat -> Reply {
    (k: nat) => if k < |s| then s[k] else Reply.Failed
  }

  /**
   In every interleaving, a run that reaches Finish has counted what importCandidates counts for these replies, and
   moves the checkpoint as processSource does.
   */
  lemma FinishIsProcessSource(b: seq<State>, acts: seq<Action>, bound: Instant, normalizes: Entry -> bool, r: nat,
                              n: nat)
    requires Behavior(b, acts, bound, normalizes) && n < |acts| && acts[n] == Action.Finish(r)
    ensures r in b[n].runs && b[n].runs[r].Importing?
    ensures var x := b[n].runs[r];
            var t := CountFrom(EMPTY, x.candidates, 0, 0, ReplyAt(RepliesSoFar(acts, r, n)));
            && x.candidates == CandidatesOf(ReadResult(x.seen, x.from, x.to, x.afterId, x.limit))
            && x.tally == t && b[n + 1].checkpoint == AfterImport(b[n].checkpoint, t)
  {
    hide ReadResult, Latest, Enabled;
    var s := RepliesSoFar(acts, r, n);
    assert Enabled(b[n], acts[n], bound, normalizes) && b[n + 1] == Apply(b[n], acts[n]);
    EnabledRun(b[n], acts[n], bound, normalizes);
    StepsAddUp(b, acts, bound, normalizes, r, n, ReplyAt(s));
    assert Extends(ReplyAt(s), s);
  }

  // ----- From the method to the steps -----

  /** The rest of a run, one step after the other, when nobody else interferes. */
  lemma {:induction false} RunRest(b: seq<State>, acts: seq<Action>, bound: Instant, normalizes: Entry -> bool, r: nat,
                                   k: nat,
                                   replies: nat -> Reply)
    returns (b': seq<State>, acts': seq<Action>)
    requires Behavior(b, acts, bound, normalizes) && r in b[|b| - 1].runs && b[|b| - 1].runs[r].Importing?
    requires b[|b| - 1].runs[r].tally.failure == NoFailure &&
             b[|b| - 1].runs[r].start <= |b[|b| - 1].runs[r].candidates|
    ensures Behavior(b', acts', bound, normalizes) && acts <= acts' && b'[|b'| - 1].history == b[|b| - 1].history
    ensures var x := b[|b| - 1].runs[r];
            b'[|b'| - 1].checkpoint
                == AfterImport(b[|b| - 1].checkpoint, CountFrom(x.tally, x.candidates, x.start, k, replies))
    decreases |b[|b| - 1].runs[r].candidates| - b[|b| - 1].runs[r].start
  {
    hide AnsweredIds, Latest, CountBatch, ByExternalId, ReadResult, ValidHistory, AtMost;
    var s := b[|b| - 1];
    var x := s.runs[r];
    var a := if x.start >= |x.candidates| then Action.Finish(r) else Action.Import(r, replies(k));
    BehaviorSnoc(b, acts, a, bound, normalizes);
    b', acts' := b + [Apply(s, a)], acts + [a];
    if x.start < |x.candidates| {
      var t := CountBatch(x.tally, x.candidates[x.start..BatchEnd(x.candidates, x.start)], replies(k),
                          ByExternalId(x.candidates));
      if t.failure == NoFailure {
        b', acts' := RunRest(b', acts', bound, normalizes, r, k + 1, replies);
      }
    }
  }

  lemma BegunRun(s: State, r: nat, job: Job)
    requires job.trigger != Q.Manual && job.from.Some? && job.to.Some?
    ensures var t := Apply(s, Action.Begin(r, job.from.value, job.to.value, job.limit));
            && t.history == s.history && t.checkpoint == s.checkpoint && r in t.runs && t.runs[r].Ready?
            && ReadResult(t.history, t.runs[r].from, t.runs[r].to, t.runs[r].afterId, t.runs[r].limit)
               == JobItems(job, s.checkpoint, s.history)
  {
  }

  lemma ReadRun(s: State, r: nat, items: seq<Entry>)
    requires r in s.runs && s.runs[r].Ready?
    requires items == ReadResult(s.history, s.runs[r].from, s.runs[r].to, s.runs[r].afterId, s.runs[r].limit)
    ensures var t := Apply(s, Action.Read(r));
            && t.history == s.history && t.checkpoint == s.checkpoint && r in t.runs && t.runs[r].Importing?
            && t.runs[r].candidates == CandidatesOf(items) && t.runs[r].start == 0 && t.runs[r].tally == EMPTY
  {
  }

  /**
   A non-manual Telegram source that processSource works through is a run of the transition system: begun at any
   reachable state, and left alone, the run reads the same messages and leaves the same checkpoint, also when the
   pipeline rejects one of them and the run gives up.
   */
  lemma ProcessSourceIsRun(b: seq<State>, acts: seq<Action>, bound: Instant, normalizes: Entry -> bool, r: nat,
                           job: Job, replies: nat -> Reply)
    returns (b': seq<State>, acts': seq<Action>)
    requires Behavior(b, acts, bound, normalizes) && r !in b[|b| - 1].runs
    requires job.trigger != Q.Manual && job.from.Some? && job.to.Some?
    requires b[|b| - 1].checkpoint.NoCheckpoint? ==> AtMost(job.from.value, bound)
    ensures Behavior(b', acts', bound, normalizes) && acts <= acts' && b'[|b'| - 1].history == b[|b| - 1].history
    ensures var s := b[|b| - 1];
            var items := JobItems(job, s.checkpoint, s.history);
            b'[|b'| - 1].checkpoint ==
              if AllNormalize(items, normalizes) then
                AfterImport(s.checkpoint, CountFrom(EMPTY, CandidatesOf(items), 0, 0, replies))
              else s.checkpoint
  {
    hide ReadResult, CountFrom, JobItems, AllNormalize, AfterImport, Init;
    var s := b[|b| - 1];
    var items := JobItems(job, s.checkpoint, s.history);
    var begin := Action.Begin(r, job.from.value, job.to.value, job.limit);
    BehaviorSnoc(b, acts, begin, bound, normalizes);
    BegunRun(s, r, job);
    var s1 := Apply(s, begin);
    b', acts' := b + [s1], acts + [begin];
    if AllNormalize(items, normalizes) {
      BehaviorSnoc(b', acts', Action.Read(r), bound, normalizes);
      ReadRun(s1, r, items);
      b', acts' := b' + [Apply(s1, Action.Read(r))], acts' + [Action.Read(r)];
      b', acts' := RunRest(b', acts', bound, normalizes, r, 0, replies);
    } else {
      BehaviorSnoc(b', acts', Action.GiveUp(r), bound, normalizes);
      b', acts' := b' + [Apply(s1, Action.GiveUp(r))], acts' + [Action.GiveUp(r)];
    }
  }
}
