/**
 One cycle of the older scheduler: all sources are collected, every raw task goes through the pipeline, and what the
 repository does not have yet is saved.
 */
module CollectionCycle {
  import F = Faults

  type Hash = string

  /** A processed task: its source hash, possibly "", and the hash of its content. */
  datatype Task = Task(sourceHash: Hash, contentHash: Hash)

  /** What the pipeline makes of a raw task. */
  datatype Outcome = Broken | Processed(task: Task)

  /** What a source delivered, as the pipeline will see it. */
  datatype SourceResult = SourceFailed | Delivered(tasks: seq<Outcome>)

  /** What became of a raw task; after an unreported save it is stored although there was an error. */
  datatype Fate = PipelineError | SaveError | SaveUnreported | Duplicate | Saved

  datatype Summary = Summary(sources: nat, collected: nat, processed: nat, duplicates: nat, saved: nat, errors: nat)

  /** The hash a task is stored under; a missing one is computed from the content. */
  function HashOf(task: Task): Hash {
    if task.sourceHash == "" then task.contentHash else task.sourceHash
  }

  /** A given hash is kept; only without one the content decides. */
  lemma HashMeaning(given: Hash, content: Hash)
    ensures HashOf(Task("", content)) == content
    ensures given != "" ==> HashOf(Task(given, content)) == given
  {
  }

  /**
   The Repository interface as far as a cycle uses it: the hashes of the stored tasks, and the outcomes of the calls.
   */
  class Repository {
    const outcomes: nat -> F.Outcome
    var hashes: set<Hash>
    var calls: nat

    constructor (outcomes: nat -> F.Outcome)
      ensures hashes == {} && calls == 0 && this.outcomes == outcomes
    {
      hashes, calls := {}, 0;
      this.outcomes := outcomes;
    }

    method FindBySourceHash(hash: Hash) returns (ok: bool, found: bool)
      modifies this`calls
      ensures calls == old(calls) + 1 && ok == (outcomes(old(calls)) == F.Served) && found == (hash in hashes)
    {
      ok, found := outcomes(calls) == F.Served, hash in hashes;
      calls := calls + 1;
    }

    /** Stores a task in one transaction. */
    method Save(task: Task) returns (ok: bool)
      modifies this
      ensures calls == old(calls) + 1 && ok == (outcomes(old(calls)) == F.Served)
      ensures hashes == if outcomes(old(calls)) == F.Refused then old(hashes) else old(hashes) + {task.sourceHash}
    {
      var outcome := outcomes(calls);
      calls := calls + 1;
      if outcome != F.Refused {
        hashes := hashes + {task.sourceHash};
      }
      ok := outcome == F.Served;
    }
  }

  predicate Stores(fate: Fate) {
    fate == Saved || fate == SaveUnreported
  }

  /** What may become of a raw task when `stored` is in the repository. */
  predicate FateOk(outcome: Outcome, fate: Fate, stored: set<Hash>) {
    match fate
    case PipelineError => outcome.Broken?
    case SaveError => outcome.Processed?
    case Duplicate => outcome.Processed? && HashOf(outcome.task) in stored
    case _ => outcome.Processed? && HashOf(outcome.task) !in stored
  }

  /** What the repository holds after the tasks met these fates. */
  function After(tasks: seq<Outcome>, fates: seq<Fate>, before: set<Hash>): set<Hash>
    requires |fates| <= |tasks|
    decreases |fates|
  {
    if fates == [] then before
    else
      var n := |fates| - 1;
      var stored := After(tasks, fates[..n], before);
      if Stores(fates[n]) && tasks[n].Processed? then stored + {HashOf(tasks[n].task)} else stored
  }

  predicate Possible(tasks: seq<Outcome>, fates: seq<Fate>, before: set<Hash>)
    requires |fates| <= |tasks|
    decreases |fates|
  {
    fates == [] ||
    (var n := |fates| - 1;
     Possible(tasks, fates[..n], before) && FateOk(tasks[n], fates[n], After(tasks, fates[..n], before)))
  }

  function Count(fates: seq<Fate>, fate: Fate): nat {
    multiset(fates)[fate]
  }

  /** The failing calls from `first` to before `next`. */
  function FailedCalls(outcomes: nat -> F.Outcome, first: nat, next: nat): set<nat> {
    set c: nat | first <= c < next && outcomes(c) != F.Served
  }

  lemma NoFates(tasks: seq<Outcome>, before: set<Hash>, outcomes: nat -> F.Outcome, first: nat)
    ensures Possible(tasks, [], before) && After(tasks, [], before) == before && forall f :: Count([], f) == 0
    ensures FailedCalls(outcomes, first, first) == {}
  {
  }

  lemma OneMoreCounted(fates: seq<Fate>, fate: Fate)
    ensures forall f :: Count(fates + [fate], f) == Count(fates, f) + if f == fate then 1 else 0
  {
  }

  /** One more task. */
  lemma OneFate(tasks: seq<Outcome>, fates: seq<Fate>, fate: Fate, before: set<Hash>)
    requires |fates| < |tasks| && Possible(tasks, fates, before)
    requires FateOk(tasks[|fates|], fate, After(tasks, fates, before))
    ensures Possible(tasks, fates + [fate], before)
    ensures After(tasks, fates + [fate], before)
         == After(tasks, fates, before) + if Stores(fate) then {HashOf(tasks[|fates|].task)} else {}
  {
    assert (fates + [fate])[..|fates|] == fates;
  }

  lemma NoMoreFailures(outcomes: nat -> F.Outcome, first: nat, middle: nat, next: nat)
    requires first <= middle <= next && forall c :: middle <= c < next ==> outcomes(c) == F.Served
    ensures FailedCalls(outcomes, first, next) == FailedCalls(outcomes, first, middle)
  {
  }

  lemma OneMoreFailure(outcomes: nat -> F.Outcome, first: nat, middle: nat, next: nat)
    requires first <= middle < next && outcomes(next - 1) != F.Served
    requires forall c :: middle <= c < next - 1 ==> outcomes(c) == F.Served
    ensures |FailedCalls(outcomes, first, next)| == |FailedCalls(outcomes, first, middle)| + 1
  {
    assert FailedCalls(outcomes, first, next) == FailedCalls(outcomes, first, middle) + {next - 1};
  }

  // ----- The cycle -----

  /**
   SaveIfNotDuplicate: the outcomes of the two calls, and whether the hash is stored already, decide about the fate. The
   caller is told of an error, but not whether the save was carried out all the same.
   */
  method SaveIfNotDuplicate(given: Task, repo: Repository) returns (saved: bool, ok: bool, ghost fate: Fate)
    modifies repo
    ensures saved == (fate == Saved) && ok == (fate == Saved || fate == Duplicate)
    ensures FateOk(Processed(given), fate, old(repo.hashes))
    ensures var first, stored := old(repo.calls), HashOf(given) in old(repo.hashes);
            var found := repo.outcomes(first) == F.Served;
            && (fate == Duplicate <==> found && stored)
            && (fate == Saved <==> found && !stored && repo.outcomes(first + 1) == F.Served)
            && (fate == SaveUnreported <==> found && !stored && repo.outcomes(first + 1) == F.Unreported)
            && repo.calls == first + if found && !stored then 2 else 1
    ensures repo.hashes == if Stores(fate) then old(repo.hashes) + {HashOf(given)} else old(repo.hashes)
  {
    saved, ok, fate := false, true, SaveError;
    var task := given;
    if task.sourceHash == "" {
      task := task.(sourceHash := task.contentHash);
    }
    var found;
    ok, found := repo.FindBySourceHash(task.sourceHash);
    if !ok {
      return;
    }
    if found {
      fate := Duplicate;
      return;
    }
    saved := repo.Save(task);
    ok := saved;
    fate := match repo.outcomes(repo.calls - 1)
      case Served => Saved
      case Refused => SaveError
      case Unreported => SaveUnreported;
  }

  function AllTasks(results: seq<SourceResult>): seq<Outcome> {
    if results == [] then []
    else
      var init, last := AllTasks(results[..|results| - 1]), results[|results| - 1];
      if last.Delivered? then init + last.tasks else init
  }

  /** Every source that delivered contributes its tasks, in place, and a failed one nothing. */
  lemma {:induction false} AllTasksMeaning(results: seq<SourceResult>, j: nat)
    requires j < |results|
    ensures AllTasks(results) == AllTasks(results[..j]) + (if results[j].Delivered? then results[j].tasks else []) +
                                 AllTasks(results[j + 1..])
  {
    var n := |results| - 1;
    if j < n {
      var init := results[..n];
      AllTasksMeaning(init, j);
      assert init[..j] == results[..j];
      assert results[j + 1..][..n - j - 1] == init[j + 1..];
      assert results[j + 1..][n - j - 1] == results[n];
    } else {
      assert results[j + 1..] == [];
    }
  }

  lemma {:induction false} FailedSourcesMeaning(results: seq<SourceResult>)
    ensures FailedSources(results) == |set j | 0 <= j < |results| && results[j].SourceFailed?|
  {
    var failed := set j | 0 <= j < |results| && results[j].SourceFailed?;
    if results == [] {
      assert failed == {};
    } else {
      var n := |results| - 1;
      FailedSourcesMeaning(results[..n]);
      var before := set j | 0 <= j < |results[..n]| && results[..n][j].SourceFailed?;
      assert failed == before + if results[n].SourceFailed? then {n} else {};
    }
  }

  function FailedSources(results: seq<SourceResult>): nat {
    if results == [] then 0
    else FailedSources(results[..|results| - 1]) + if results[|results| - 1].SourceFailed? then 1 else 0
  }

  method Gather(results: seq<SourceResult>) returns (allRaw: seq<Outcome>, collected: nat, errors: nat)
    ensures allRaw == AllTasks(results) && collected == |allRaw| && errors == FailedSources(results)
  {
    allRaw, collected, errors := [], 0, 0;
    for i := 0 to |results|
      invariant allRaw == AllTasks(results[..i]) && collected == |allRaw| && errors == FailedSources(results[..i])
    {
      assert results[..i + 1][..i] == results[..i];
      if results[i].SourceFailed? {
        errors := errors + 1;
      } else {
        allRaw := allRaw + results[i].tasks;
        collected := collected + |results[i].tasks|;
      }
    }
    assert results[..|results|] == results;
  }

  /** The save errors that the caller saw. */
  function SaveErrors(fates: seq<Fate>): nat {
    Count(fates, SaveError) + Count(fates, SaveUnreported)
  }

  /** The summary after the first tasks met these fates. */
  predicate Tallied(s: Summary, results: seq<SourceResult>, fates: seq<Fate>) {
    && s.sources == |results| && s.collected == |AllTasks(results)|
    && s.saved == Count(fates, Saved) && s.duplicates == Count(fates, Duplicate)
    && s.errors == FailedSources(results) + Count(fates, PipelineError) + SaveErrors(fates)
    && s.processed == |fates| - Count(fates, PipelineError)
  }

  lemma NothingTallied(s: Summary, results: seq<SourceResult>)
    requires s == Summary(|results|, |AllTasks(results)|, 0, 0, 0, FailedSources(results))
    ensures Tallied(s, results, []) && SaveErrors([]) == 0
  {
    hide AllTasks, FailedSources;
  }

  predicate SavingFailed(fate: Fate) {
    fate == SaveError || fate == SaveUnreported
  }

  /** The counters after one more task. */
  predicate Accounted(s: Summary, fate: Fate, t: Summary) {
    && t.sources == s.sources && t.collected == s.collected
    && t.processed == s.processed + (if fate == PipelineError then 0 else 1)
    && t.saved == s.saved + (if fate == Saved then 1 else 0)
    && t.duplicates == s.duplicates + (if fate == Duplicate then 1 else 0)
    && t.errors == s.errors + if fate == PipelineError || SavingFailed(fate) then 1 else 0
  }

  lemma TalliedOne(s: Summary, results: seq<SourceResult>, fates: seq<Fate>, fate: Fate, t: Summary)
    requires Tallied(s, results, fates) && Accounted(s, fate, t)
    ensures Tallied(t, results, fates + [fate])
    ensures SaveErrors(fates + [fate]) == SaveErrors(fates) + if SavingFailed(fate) then 1 else 0
  {
    hide AllTasks, FailedSources;
    OneMoreCounted(fates, fate);
  }

  /** The body of the loop over the raw tasks; `first` is any earlier call of the repository. */
  method HandleTask(raw: Outcome, repo: Repository, before: Summary, ghost first: nat)
    returns (summary: Summary, ghost fate: Fate)
    requires first <= repo.calls
    modifies repo
    ensures FateOk(raw, fate, old(repo.hashes)) && Accounted(before, fate, summary) && repo.calls >= old(repo.calls)
    ensures repo.hashes == old(repo.hashes) + if raw.Processed? && Stores(fate) then {HashOf(raw.task)} else {}
    ensures |FailedCalls(repo.outcomes, first, repo.calls)|
         == |FailedCalls(repo.outcomes, first, old(repo.calls))| + if SavingFailed(fate) then 1 else 0
  {
    hide HashOf, FailedCalls;
    summary, fate := before, PipelineError;
    if raw.Broken? {
      summary := summary.(errors := summary.errors + 1);
      return;
    }
    summary := summary.(processed := summary.processed + 1);
    var saved, ok;
    ghost var middle := repo.calls;
    saved, ok, fate := SaveIfNotDuplicate(raw.task, repo);
    if !ok {
      OneMoreFailure(repo.outcomes, first, middle, repo.calls);
      summary := summary.(errors := summary.errors + 1);
      return;
    }
    NoMoreFailures(repo.outcomes, first, middle, repo.calls);
    if saved {
      summary := summary.(saved := summary.saved + 1);
    } else {
      summary := summary.(duplicates := summary.duplicates + 1);
    }
  }

  /**
   RunOnce. The ghost result lists what became of the raw tasks, up to the first one before which the context was
   cancelled. Every failing call of the repository makes one save error, and nothing else does.
   */
  method RunOnce(results: seq<SourceResult>, repo: Repository, cancels: nat -> bool)
    returns (summary: Summary, ghost fates: seq<Fate>)
    modifies repo
    ensures |fates| <= |AllTasks(results)| && (|fates| < |AllTasks(results)| ==> cancels(|fates|))
    ensures forall i :: 0 <= i < |fates| ==> !cancels(i)
    ensures Possible(AllTasks(results), fates, old(repo.hashes))
    ensures repo.hashes == After(AllTasks(results), fates, old(repo.hashes))
    ensures Tallied(summary, results, fates)
    ensures SaveErrors(fates) == |FailedCalls(repo.outcomes, old(repo.calls), repo.calls)|
  {
    hide AllTasks, FailedSources, Possible, After, Count, FailedCalls, Tallied, SaveErrors, Accounted, HashOf;
    var allRaw, collected, errors := Gather(results);
    summary := Summary(|results|, collected, 0, 0, 0, errors);
    fates := [];
    NoFates(allRaw, repo.hashes, repo.outcomes, repo.calls);
    NothingTallied(summary, results);
    for i := 0 to |allRaw|
      invariant |fates| == i && Tallied(summary, results, fates) && forall k :: 0 <= k < i ==> !cancels(k)
      invariant Possible(allRaw, fates, old(repo.hashes)) && repo.hashes == After(allRaw, fates, old(repo.hashes))
      invariant repo.calls >= old(repo.calls)
      invariant SaveErrors(fates) == |FailedCalls(repo.outcomes, old(repo.calls), repo.calls)|
    {
      if cancels(i) {
        return;
      }
      ghost var fate, before := PipelineError, summary;
      summary, fate := HandleTask(allRaw[i], repo, summary, old(repo.calls));
      OneFate(allRaw, fates, fate, old(repo.hashes));
      TalliedOne(before, results, fates, fate, summary);
      fates := fates + [fate];
    }
  }

  // ----- Conservation -----

  lemma {:induction false} CountsCover(fates: seq<Fate>)
    ensures Count(fates, PipelineError) + SaveErrors(fates) + Count(fates, Duplicate) + Count(fates, Saved) == |fates|
  {
    if fates != [] {
      var init, last := fates[..|fates| - 1], fates[|fates| - 1];
      CountsCover(init);
      OneMoreCounted(init, last);
      assert fates == init + [last];
    } else {
      assert multiset(fates) == multiset{};
    }
  }

  /**
   Nothing is lost: every raw task and every failed source is counted once as saved, duplicate or error; of a cancelled
   cycle this holds for the tasks it got to.
   */
  lemma Conservation(s: Summary, results: seq<SourceResult>, fates: seq<Fate>)
    requires Tallied(s, results, fates) && |fates| <= |AllTasks(results)|
    ensures s.collected + FailedSources(results) == s.saved + s.duplicates + s.errors + (|AllTasks(results)| - |fates|)
    ensures s.processed == s.saved + s.duplicates + SaveErrors(fates)
  {
    CountsCover(fates);
  }

  // ----- Deduplication -----

  lemma OneMoreHash(before: set<Hash>, stored: set<Hash>, hash: Hash)
    requires before <= stored && hash !in stored
    ensures |(stored + {hash}) - before| == |stored - before| + 1
  {
    assert (stored + {hash}) - before == (stored - before) + {hash};
  }

  lemma AfterLast(tasks: seq<Outcome>, fates: seq<Fate>, before: set<Hash>)
    requires fates != [] && |fates| <= |tasks| && Possible(tasks, fates, before)
    ensures var n := |fates| - 1;
            var stored := After(tasks, fates[..n], before);
            && Possible(tasks, fates[..n], before)
            && (!Stores(fates[n]) ==> After(tasks, fates, before) == stored)
            && (Stores(fates[n]) ==>
                  tasks[n].Processed? && HashOf(tasks[n].task) !in stored &&
                  After(tasks, fates, before) == stored + {HashOf(tasks[n].task)})
  {
  }

  /** Every saved task added one new hash, reported or not. */
  lemma {:induction false} SavedAreNew(tasks: seq<Outcome>, fates: seq<Fate>, before: set<Hash>)
    requires |fates| <= |tasks| && Possible(tasks, fates, before)
    ensures before <= After(tasks, fates, before)
    ensures Count(fates, Saved) + Count(fates, SaveUnreported) == |After(tasks, fates, before) - before|
    decreases |fates|
  {
    if fates == [] {
      assert before - before == {};
    } else {
      hide Count, HashOf, After, Possible, FateOk;
      var n := |fates| - 1;
      AfterLast(tasks, fates, before);
      SavedAreNew(tasks, fates[..n], before);
      OneMoreCounted(fates[..n], fates[n]);
      assert fates == fates[..n] + [fates[n]];
      if Stores(fates[n]) {
        OneMoreHash(before, After(tasks, fates[..n], before), HashOf(tasks[n].task));
      }
    }
  }

  /** The hashes of the tasks that the pipeline processed. */
  function Hashes(tasks: seq<Outcome>): set<Hash> {
    set i | 0 <= i < |tasks| && tasks[i].Processed? :: HashOf(tasks[i].task)
  }

  lemma {:induction false} AllStored(tasks: seq<Outcome>, fates: seq<Fate>, before: set<Hash>)
    requires |fates| <= |tasks| && Possible(tasks, fates, before) && SaveError !in fates
    ensures After(tasks, fates, before) == before + Hashes(tasks[..|fates|])
    decreases |fates|
  {
    if fates == [] {
      assert Hashes(tasks[..0]) == {};
    } else {
      var n := |fates| - 1;
      assert fates == fates[..n] + [fates[n]];
      AllStored(tasks, fates[..n], before);
      HashesSnoc(tasks, n);
    }
  }

  lemma HashesSnoc(tasks: seq<Outcome>, n: nat)
    requires n < |tasks|
    ensures Hashes(tasks[..n + 1]) == Hashes(tasks[..n]) + if tasks[n].Processed? then {HashOf(tasks[n].task)} else {}
  {
    var more := if tasks[n].Processed? then {HashOf(tasks[n].task)} else {};
    forall h | h in Hashes(tasks[..n + 1]) ensures h in Hashes(tasks[..n]) + more {
      var i :| 0 <= i < n + 1 && tasks[..n + 1][i].Processed? && HashOf(tasks[..n + 1][i].task) == h;
      assert i < n ==> tasks[..n][i] == tasks[i];
    }
    forall h | h in Hashes(tasks[..n]) + more ensures h in Hashes(tasks[..n + 1]) {
      if h in Hashes(tasks[..n]) {
        var i :| 0 <= i < n && tasks[..n][i].Processed? && HashOf(tasks[..n][i].task) == h;
        assert tasks[..n + 1][i] == tasks[i];
      } else {
        assert tasks[..n + 1][n] == tasks[n];
      }
    }
  }

  /**
   A complete cycle in which a save error means that the save was carried out stores exactly one task for every hash
   that was not stored before.
   */
  lemma SavedAreDistinctNewHashes(s: Summary, results: seq<SourceResult>, fates: seq<Fate>, before: set<Hash>)
    requires |fates| == |AllTasks(results)| && Tallied(s, results, fates)
    requires Possible(AllTasks(results), fates, before) && SaveError !in fates
    ensures After(AllTasks(results), fates, before) == before + Hashes(AllTasks(results))
    ensures s.saved + Count(fates, SaveUnreported) == |Hashes(AllTasks(results)) - before|
  {
    var tasks := AllTasks(results);
    AllStored(tasks, fates, before);
    assert tasks[..|tasks|] == tasks;
    SavedAreNew(tasks, fates, before);
    assert (before + Hashes(tasks)) - before == Hashes(tasks) - before;
  }

  lemma {:induction false} NothingNewToSave(tasks: seq<Outcome>, fates: seq<Fate>, stored: set<Hash>)
    requires |fates| <= |tasks| && Possible(tasks, fates, stored) && Hashes(tasks) <= stored
    ensures Saved !in fates && SaveUnreported !in fates && After(tasks, fates, stored) == stored
    decreases |fates|
  {
    if fates != [] {
      var n := |fates| - 1;
      assert fates == fates[..n] + [fates[n]];
      NothingNewToSave(tasks, fates[..n], stored);
      assert tasks[n].Processed? ==> HashOf(tasks[n].task) in Hashes(tasks);
    }
  }

  /**
   A second cycle over the same raw tasks saves nothing and leaves the repository alone, whatever else was stored in
   between, provided the first one was complete and stored what it had to.
   */
  lemma SecondCycleSavesNothing(s: Summary, results: seq<SourceResult>, first: seq<Fate>, before: set<Hash>,
                                second: seq<Fate>, stored: set<Hash>)
    requires var tasks := AllTasks(results);
             && |first| == |tasks| && Possible(tasks, first, before) && SaveError !in first
             && After(tasks, first, before) <= stored
             && |second| <= |tasks| && Possible(tasks, second, stored) && Tallied(s, results, second)
    ensures s.saved == 0 && After(AllTasks(results), second, stored) == stored
  {
    var tasks := AllTasks(results);
    AllStored(tasks, first, before);
    assert tasks[..|tasks|] == tasks;
    NothingNewToSave(tasks, second, stored);
  }
}
