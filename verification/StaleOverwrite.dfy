/**
 Why a job must not have two workers: a worker that lost its lease starts and fails a source of a job that the other
 worker has finished as succeeded.
 */
module StaleOverwrite {
  import opened Options
  import opened QueueStore
  import opened QueueMachine
  import opened WitnessRows
  import CrashRecovery
  import Settlement

  const ROW: JobRow := QueuedJob(0)
  const SOURCE: SourceRow := QueuedSource(1)
  const READ: seq<Snapshot> := [Snapshot(7, SOURCE)]
  const BY_A: JobRow := ClaimedRow(ROW, "a", 0, 5)
  const BY_B: JobRow := ClaimedRow(BY_A, "b", 6, 5)
  const DONE: JobRow := FinishedRow(BY_B, ZERO, 0, 1, 6)
  const STARTED: SourceRow := StartedSource(SOURCE)
  const GOOD: SourceRow := SavedSource(STARTED, SourceSucceeded, ZERO, "")
  const RESTARTED: SourceRow := StartedSource(GOOD)
  const BAD: SourceRow := SavedSource(RESTARTED, SourceFailed, ZERO, "")

  function OverwriteAction(n: nat): Action {
    if n == 0 then Create(1, ROW, map[7 := SOURCE])
    else if n == 1 then Claim("a", 1, 5, READ, {})
    else if n == 2 then Tick(6)
    else if n == 3 then Claim("b", 1, 5, READ, {})
    else if n == 4 then Start("b")
    else if n == 5 then Save("b", SourceSucceeded, ZERO, "")
    else if n == 6 then Finish("b")
    else if n == 7 then Start("a")
    else Save("a", SourceFailed, ZERO, "")
  }

  function OverwriteDb(n: nat): Db {
    var row := if n <= 1 then ROW else if n <= 3 then BY_A else if n <= 6 then BY_B else DONE;
    var source := if n <= 4 then SOURCE else if n == 5 then STARTED else if n <= 7 then GOOD
                  else if n == 8 then RESTARTED else BAD;
    if n == 0 then Db(map[], map[]) else Db(map[1 := row], map[7 := source])
  }

  function OverwriteWorkers(n: nat): map<Owner, Worker> {
    var a := if n <= 7 then Working(1, READ, 0, false) else if n == 8 then Working(1, READ, 0, true)
             else Working(1, READ, 1, false);
    var b := if n <= 4 then Working(1, READ, 0, false) else if n == 5 then Working(1, READ, 0, true)
             else if n == 6 then Working(1, READ, 1, false) else Idle;
    if n <= 1 then map[] else if n <= 3 then map["a" := a] else map["a" := a, "b" := b]
  }

  function OverwriteLeases(n: nat): map<(Owner, JobId), int> {
    if n <= 1 then map[]
    else if n <= 3 || n >= 7 then map[("a", 1) := 5]
    else map[("a", 1) := 5, ("b", 1) := 11]
  }

  function OverwriteState(n: nat): State {
    State(if n <= 2 then 0 else 6, OverwriteDb(n), OverwriteWorkers(n),
          if n == 0 then Db(map[], map[]) else Db(map[1 := ROW], map[7 := SOURCE]),
          if n == 0 then [] else [1], if n <= 1 then [] else [1], if n <= 6 then [] else [1], OverwriteLeases(n))
  }

  ghost predicate OverwriteStepOk(n: nat) {
    && Enabled(OverwriteState(n), OverwriteAction(n))
    && Apply(OverwriteState(n), OverwriteAction(n)) == OverwriteState(n + 1)
    && (n != 3 ==> CrashRecovery.Disciplined(OverwriteState(n), OverwriteAction(n)))
  }

  // ----- What each statement does to the tables -----

  lemma Claims()
    ensures ClaimJob(OverwriteDb(1), 1, "a", 0, 5) == OverwriteDb(2)
    ensures ClaimJob(OverwriteDb(3), 1, "b", 6, 5) == OverwriteDb(4)
  {
    hide ROW, SOURCE, ClaimedRow;
  }

  lemma Claimable13()
    ensures FirstClaimable(OverwriteDb(1).jobs, 1, 0, {}) && FirstClaimable(OverwriteDb(3).jobs, 1, 6, {})
  {
    assert !AnyLive(OverwriteDb(1).jobs, 0) && !AnyLive(OverwriteDb(3).jobs, 6);
    assert 1 in OverwriteDb(1).jobs && 1 in OverwriteDb(3).jobs;
  }

  lemma Sources()
    ensures StartSource(OverwriteDb(4), 7) == OverwriteDb(5)
    ensures FinishSource(OverwriteDb(5), 7, SourceSucceeded, ZERO, "") == OverwriteDb(6)
    ensures StartSource(OverwriteDb(7), 7) == OverwriteDb(8)
    ensures FinishSource(OverwriteDb(8), 7, SourceFailed, ZERO, "") == OverwriteDb(9)
  {
    hide BY_B, DONE, SOURCE, StartedSource, SavedSource;
  }

  lemma OneGood(m: map<SourceId, SourceRow>)
    requires m == map[7 := GOOD]
    ensures AggregatedRow(BY_B, m, 6) == DONE
  {
    hide FinishedRow, BY_B, FailedIn, DeliveredIn, Sum;
    OneSum(m, 7);
    OneDelivered(m, 7);
  }

  lemma Finished()
    ensures JobSources(OverwriteDb(6), 1) != map[] && FinishJob(OverwriteDb(6), 1, 6) == OverwriteDb(7)
  {
    hide AggregatedRow, BY_B, DONE, Sum, FailedIn, DeliveredIn;
    var m := JobSources(OverwriteDb(6), 1);
    assert OverwriteDb(6).sources[7].job == 1;
    assert m == map[7 := GOOD];
    OneGood(m);
  }

  lemma ReadsAll()
    ensures CrashRecovery.Lists(READ, JobSources(OverwriteDb(1), 1))
  {
    var m := JobSources(OverwriteDb(1), 1);
    assert m == map[7 := SOURCE];
    assert READ[..0] == [];
    assert CrashRecovery.Ids(READ) == {7};
  }

  // ----- The steps -----

  lemma StepCreate()
    ensures OverwriteStepOk(0)
  {
    assert 7 in map[7 := SOURCE];
  }

  lemma StepClaim()
    ensures OverwriteStepOk(1)
  {
    hide OverwriteDb, ClaimJob, FirstClaimable, JobSources, CrashRecovery.Lists;
    Claims();
    Claimable13();
    ReadsAll();
  }

  lemma StepTakeover()
    ensures OverwriteStepOk(3)
  {
    hide OverwriteDb, ClaimJob, FirstClaimable;
    Claims();
    Claimable13();
  }

  lemma StepTick()
    ensures OverwriteStepOk(2)
  {
    hide ROW, SOURCE, BY_A;
  }

  lemma FirstStart()
    ensures OverwriteStepOk(4)
  {
    hide OverwriteDb, StartSource, ROW;
    Sources();
  }

  lemma StaleStart()
    ensures OverwriteStepOk(7)
  {
    hide OverwriteDb, StartSource, ROW;
    Sources();
  }

  lemma FirstSave()
    ensures OverwriteStepOk(5)
  {
    hide OverwriteDb, FinishSource, ROW;
    Sources();
  }

  lemma StaleSave()
    ensures OverwriteStepOk(8)
  {
    hide OverwriteDb, FinishSource, ROW;
    Sources();
  }

  lemma StepFinish()
    ensures OverwriteStepOk(6)
  {
    hide OverwriteDb, FinishJob, JobSources;
    Finished();
    assert OverwriteLeases(6) - {("b", 1)} == OverwriteLeases(7);
  }

  lemma EachStep(n: nat)
    requires n < 9
    ensures OverwriteStepOk(n)
  {
    hide OverwriteStepOk;
    if n == 0 {
      StepCreate();
    } else if n == 1 {
      StepClaim();
    } else if n == 2 {
      StepTick();
    } else if n == 3 {
      StepTakeover();
    } else if n == 4 {
      FirstStart();
    } else if n == 5 {
      FirstSave();
    } else if n == 6 {
      StepFinish();
    } else if n == 7 {
      StaleStart();
    } else {
      StaleSave();
    }
  }

  lemma Ends()
    ensures Init(OverwriteState(0))
    ensures var s := OverwriteState(9);
            && 1 in s.db.jobs && s.db.jobs[1].status == JobSucceeded
            && 7 in s.db.sources && s.db.sources[7].job == 1 && s.db.sources[7].status == SourceFailed
  {
  }

  lemma Mismatch(s: State)
    requires 1 in s.db.jobs && s.db.jobs[1].status == JobSucceeded
    requires 7 in s.db.sources && s.db.sources[7].job == 1 && s.db.sources[7].status == SourceFailed
    ensures !Settlement.SettledState(s)
  {
    var m := SourcesOf(s.db.sources, 1);
    assert Settlement.Ended(s.db.jobs, 1);
    assert 7 in FailedIn(m);
  }

  /**
   The job is claimed by b while a, whose lease ran out, is still on it; everything else is in order. In the end the job
   is succeeded, and its only source failed.
   */
  lemma StaleWorkerOverwrites() returns (b: seq<State>, acts: seq<Action>)
    ensures Behavior(b, acts)
    ensures forall n :: 0 <= n < |acts| && n != 3 ==> CrashRecovery.Disciplined(b[n], acts[n])
    ensures var s := b[|b| - 1];
            && 1 in s.db.jobs && s.db.jobs[1].status == JobSucceeded
            && 7 in s.db.sources && s.db.sources[7].job == 1 && s.db.sources[7].status == SourceFailed
            && !Settlement.SettledState(s)
  {
    hide Enabled, Apply, CrashRecovery.Disciplined, OverwriteState, OverwriteAction, Init, Settlement.SettledState;
    b := seq(10, n requires 0 <= n => OverwriteState(n));
    acts := seq(9, n requires 0 <= n => OverwriteAction(n));
    Ends();
    Mismatch(b[9]);
    forall n | 0 <= n < 9
      ensures StepAt(b, acts, n)
      ensures n != 3 ==> CrashRecovery.Disciplined(b[n], acts[n])
    {
      EachStep(n);
    }
  }
}
