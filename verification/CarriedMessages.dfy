/**
 The error message of a source that succeeds. The result of a source starts as a copy of the row that the claim read, so
 a delivered source keeps the message of an earlier attempt.
 */
module CarriedMessages {
  import opened Options
  import opened QueueStore
  import opened QueueMachine
  import opened WitnessRows
  import opened CrashRecovery
  import BatchImport
  import SourceRun

  predicate AtSource(s: State, a: Action, i: SourceId) {
    a.Save? && var x := WorkerOf(s, a.owner);
               x.Working? && x.next < |x.todo| && x.todo[x.next].id == i
  }

  /** A worker that delivers a source stores the message of the row it read. */
  predicate Carries(s: State, a: Action) {
    a.Save? && Delivered(a.status) && WorkerOf(s, a.owner).Working? &&
    WorkerOf(s, a.owner).next < |WorkerOf(s, a.owner).todo| ==>
      a.message == WorkerOf(s, a.owner).todo[WorkerOf(s, a.owner).next].row.message
  }

  /** The action that stores a result. */
  function SaveOf(w: Owner, result: SourceRow): Action {
    Save(w, result.status, result.totals, result.message)
  }

  /**
   Saving what processSource makes of a source that goes well: the stored row is delivered, and its message is that of
   the row the claim read, so that it is empty if and only if that one was.
   */
  lemma DeliveryKeepsMessage(s: State, w: Owner, i: SourceId, job: SourceRun.Job,
                             candidates: seq<BatchImport.Candidate>, t: BatchImport.Tally)
    requires WorkerOf(s, w).Working? && WorkerOf(s, w).next < |WorkerOf(s, w).todo| && i in s.db.sources
    requires WorkerOf(s, w).todo[WorkerOf(s, w).next].id == i
    ensures var read := WorkerOf(s, w).todo[WorkerOf(s, w).next].row;
            var a := SaveOf(w, SourceRun.SucceededRow(read, job, candidates, t));
            var stored := Apply(s, a).db.sources[i];
            Carries(s, a) && Delivered(stored.status) && (stored.message == "" <==> read.message == "")
  {
  }

  ghost predicate CarryingBehavior(b: seq<State>, acts: seq<Action>) {
    DisciplinedBehavior(b, acts) && forall n :: 0 <= n < |acts| ==> Carries(b[n], acts[n])
  }

  predicate SavesFailure(s: State, a: Action, i: SourceId) {
    AtSource(s, a, i) && a.status == SourceFailed
  }

  /** The source is created, or requeued with its failed job. */
  predicate Resets(s: State, a: Action, i: SourceId) {
    || (a.Create? && i in a.rows)
    || (a.Requeue? && a.job in s.db.jobs && s.db.jobs[a.job].status == JobFailed
        && i in s.db.sources && s.db.sources[i].job == a.job && s.db.sources[i].status == SourceFailed)
  }

  /** The message of the last failed attempt since the source was created or requeued, or "". */
  ghost function LastFailure(b: seq<State>, acts: seq<Action>, i: SourceId, n: nat): string
    requires |b| == |acts| + 1 && n <= |acts|
  {
    if n == 0 then ""
    else if SavesFailure(b[n - 1], acts[n - 1], i) then acts[n - 1].message
    else if Resets(b[n - 1], acts[n - 1], i) then ""
    else LastFailure(b, acts, i, n - 1)
  }

  lemma SaveMessage(s: State, a: Action, i: SourceId)
    requires Inv(s) && Enabled(s, a) && Carries(s, a) && AtSource(s, a, i)
    ensures i in s.db.sources && i in Apply(s, a).db.sources
    ensures Apply(s, a).db.sources[i].message == if a.status == SourceFailed then a.message else s.db.sources[i].message
  {
    hide Inv, OnTrack, SourceFrom, SourcesOf;
    var current := CurrentSource(s, a.owner);
    assert RowAt(WorkerOf(s, a.owner), WorkerOf(s, a.owner).next, s.db.sources[i]);
  }

  lemma CreateMessage(s: State, a: Action, i: SourceId)
    requires Enabled(s, a) && a.Create? && i in a.rows
    ensures i in Apply(s, a).db.sources && Apply(s, a).db.sources[i].message == ""
  {
  }

  lemma OtherMessage(s: State, a: Action, i: SourceId)
    requires Enabled(s, a) && !AtSource(s, a, i) && !(a.Create? && i in a.rows) && i in Apply(s, a).db.sources
    ensures i in s.db.sources
    ensures Apply(s, a).db.sources[i].message == if Resets(s, a, i) then "" else s.db.sources[i].message
  {
    hide Sum, FailedIn, DeliveredIn, FirstClaimable;
  }

  /**
   With one worker on a job at a time, the message of a source, delivered or not, is that of its last failed attempt
   since it was created or requeued: a delivered source has an empty message exactly when there was no such attempt, or
   one with an empty message.
   */
  lemma {:induction false} MessageIsLastFailure(b: seq<State>, acts: seq<Action>, i: SourceId, n: nat)
    requires CarryingBehavior(b, acts) && n <= |acts| && i in b[n].db.sources
    ensures b[n].db.sources[i].message == LastFailure(b, acts, i, n)
  {
    hide Enabled, Apply, Inv, Disciplined, Carries, Resets;
    if n > 0 {
      var s, a := b[n - 1], acts[n - 1];
      assert StepAt(b, acts, n - 1) && Carries(s, a);
      StepResult(b, acts, n - 1);
      InvAlong(b, acts, n - 1);
      if AtSource(s, a, i) {
        SaveMessage(s, a, i);
        NoReset(s, a, i);
        MessageIsLastFailure(b, acts, i, n - 1);
        OutcomeSaved(s, a);
      } else if a.Create? && i in a.rows {
        CreateMessage(s, a, i);
        CreateResets(s, a, i);
      } else {
        OtherMessage(s, a, i);
        MessageIsLastFailure(b, acts, i, n - 1);
      }
    }
  }

  lemma NoReset(s: State, a: Action, i: SourceId)
    requires a.Save?
    ensures !Resets(s, a, i)
  {
  }

  lemma CreateResets(s: State, a: Action, i: SourceId)
    requires a.Create? && i in a.rows
    ensures Resets(s, a, i)
  {
  }

  lemma OutcomeSaved(s: State, a: Action)
    requires Enabled(s, a) && a.Save?
    ensures a.status == SourceFailed || Delivered(a.status)
  {
  }

  // ----- A run in which a message survives -----

  const ROW: JobRow := QueuedJob(0)
  const SOURCE: SourceRow := QueuedSource(1)
  const TROUBLE: string := "no connection"
  const BY_A: JobRow := ClaimedRow(ROW, "a", 0, 5)
  const BY_B: JobRow := ClaimedRow(BY_A, "b", 6, 5)
  const DONE: JobRow := FinishedRow(BY_B, ZERO, 0, 1, 6)
  const STARTED: SourceRow := StartedSource(SOURCE)
  const FAILED: SourceRow := SavedSource(STARTED, SourceFailed, ZERO, TROUBLE)
  const RESTARTED: SourceRow := StartedSource(FAILED)
  const GOOD: SourceRow := SavedSource(RESTARTED, SourceSucceeded, ZERO, TROUBLE)
  const READ_A: seq<Snapshot> := [Snapshot(7, SOURCE)]
  const READ_B: seq<Snapshot> := [Snapshot(7, FAILED)]

  function RunAction(n: nat): Action {
    if n == 0 then Create(1, ROW, map[7 := SOURCE])
    else if n == 1 then Claim("a", 1, 5, READ_A, {})
    else if n == 2 then Start("a")
    else if n == 3 then Save("a", SourceFailed, ZERO, TROUBLE)
    else if n == 4 then Crash("a")
    else if n == 5 then Tick(6)
    else if n == 6 then Claim("b", 1, 5, READ_B, {})
    else if n == 7 then Start("b")
    else if n == 8 then Save("b", SourceSucceeded, ZERO, TROUBLE)
    else Finish("b")
  }

  function RunDb(n: nat): Db {
    var row := if n <= 1 then ROW else if n <= 6 then BY_A else if n <= 9 then BY_B else DONE;
    var source := if n <= 2 then SOURCE else if n == 3 then STARTED else if n <= 7 then FAILED
                  else if n == 8 then RESTARTED else GOOD;
    if n == 0 then Db(map[], map[]) else Db(map[1 := row], map[7 := source])
  }

  function RunWorkers(n: nat): map<Owner, Worker> {
    var a := if n <= 2 then Working(1, READ_A, 0, false) else if n == 3 then Working(1, READ_A, 0, true)
             else if n == 4 then Working(1, READ_A, 1, false) else Idle;
    var b := if n <= 7 then Working(1, READ_B, 0, false) else if n == 8 then Working(1, READ_B, 0, true)
             else if n == 9 then Working(1, READ_B, 1, false) else Idle;
    if n <= 1 then map[] else if n <= 6 then map["a" := a] else map["a" := a, "b" := b]
  }

  function RunLeases(n: nat): map<(Owner, JobId), int> {
    if n <= 1 then map[]
    else if n <= 6 || n >= 10 then map[("a", 1) := 5]
    else map[("a", 1) := 5, ("b", 1) := 11]
  }

  function RunState(n: nat): State {
    State(if n <= 5 then 0 else 6, RunDb(n), RunWorkers(n),
          if n == 0 then Db(map[], map[]) else Db(map[1 := ROW], map[7 := SOURCE]),
          if n == 0 then [] else [1], if n <= 1 then [] else [1], if n <= 9 then [] else [1], RunLeases(n))
  }

  ghost predicate RunStepOk(n: nat) {
    && Enabled(RunState(n), RunAction(n)) && Apply(RunState(n), RunAction(n)) == RunState(n + 1)
    && Disciplined(RunState(n), RunAction(n)) && Carries(RunState(n), RunAction(n))
  }

  lemma RunClaims()
    ensures ClaimJob(RunDb(1), 1, "a", 0, 5) == RunDb(2) && ClaimJob(RunDb(6), 1, "b", 6, 5) == RunDb(7)
  {
    hide ROW, SOURCE, ClaimedRow, FAILED;
  }

  lemma RunClaimable()
    ensures FirstClaimable(RunDb(1).jobs, 1, 0, {}) && FirstClaimable(RunDb(6).jobs, 1, 6, {})
  {
    assert !AnyLive(RunDb(1).jobs, 0) && !AnyLive(RunDb(6).jobs, 6);
    assert 1 in RunDb(1).jobs && 1 in RunDb(6).jobs;
  }

  lemma RunSources()
    ensures StartSource(RunDb(2), 7) == RunDb(3)
    ensures FinishSource(RunDb(3), 7, SourceFailed, ZERO, TROUBLE) == RunDb(4)
    ensures StartSource(RunDb(7), 7) == RunDb(8)
    ensures FinishSource(RunDb(8), 7, SourceSucceeded, ZERO, TROUBLE) == RunDb(9)
  {
    hide BY_A, BY_B, DONE, SOURCE, StartedSource, SavedSource;
  }

  lemma RunFinished()
    ensures JobSources(RunDb(9), 1) != map[] && FinishJob(RunDb(9), 1, 6) == RunDb(10)
  {
    hide AggregatedRow, BY_B, DONE, Sum, FailedIn, DeliveredIn;
    var m := JobSources(RunDb(9), 1);
    assert RunDb(9).sources[7].job == 1;
    assert m == map[7 := GOOD];
    OneGood(m);
  }

  lemma OneGood(m: map<SourceId, SourceRow>)
    requires m == map[7 := GOOD]
    ensures AggregatedRow(BY_B, m, 6) == DONE
  {
    hide FinishedRow, BY_B, FailedIn, DeliveredIn, Sum;
    OneSum(m, 7);
    OneDelivered(m, 7);
  }

  lemma ReadsOne(todo: seq<Snapshot>, m: map<SourceId, SourceRow>, row: SourceRow)
    requires todo == [Snapshot(7, row)] && m == map[7 := row]
    ensures Lists(todo, m)
  {
    assert todo[..0] == [];
    assert Ids(todo) == {7};
  }

  lemma RunReads()
    ensures Lists(READ_A, JobSources(RunDb(1), 1)) && Lists(READ_B, JobSources(RunDb(6), 1))
  {
    hide Lists;
    assert JobSources(RunDb(1), 1) == map[7 := SOURCE] && JobSources(RunDb(6), 1) == map[7 := FAILED];
    ReadsOne(READ_A, JobSources(RunDb(1), 1), SOURCE);
    ReadsOne(READ_B, JobSources(RunDb(6), 1), FAILED);
  }

  lemma RunCreate()
    ensures RunStepOk(0)
  {
    assert 7 in map[7 := SOURCE];
  }

  lemma RunFirstClaim()
    ensures RunStepOk(1)
  {
    hide RunDb, ClaimJob, FirstClaimable, JobSources, Lists;
    RunClaims();
    RunClaimable();
    RunReads();
  }

  lemma RunReclaim()
    ensures RunStepOk(6)
  {
    hide RunDb, ClaimJob, FirstClaimable, JobSources, Lists;
    RunClaims();
    RunClaimable();
    RunReads();
  }

  lemma FirstStart()
    ensures RunStepOk(2)
  {
    hide RunDb, StartSource, ROW;
    RunSources();
  }

  lemma SecondStart()
    ensures RunStepOk(7)
  {
    hide RunDb, StartSource, ROW;
    RunSources();
  }

  lemma FirstSave()
    ensures RunStepOk(3)
  {
    hide RunDb, FinishSource, ROW;
    RunSources();
  }

  lemma SecondSave()
    ensures RunStepOk(8)
  {
    hide RunDb, FinishSource, ROW;
    RunSources();
  }

  lemma RunPauses(n: nat)
    requires n == 4 || n == 5
    ensures RunStepOk(n)
  {
    hide ROW, SOURCE, BY_A, FAILED;
  }

  lemma RunFinish()
    ensures RunStepOk(9)
  {
    hide RunDb, FinishJob, JobSources;
    RunFinished();
    assert RunLeases(9) - {("b", 1)} == RunLeases(10);
  }

  lemma EachRunStep(n: nat)
    requires n < 10
    ensures RunStepOk(n)
  {
    hide RunStepOk;
    if n == 0 {
      RunCreate();
    } else if n == 1 {
      RunFirstClaim();
    } else if n == 6 {
      RunReclaim();
    } else if n == 9 {
      RunFinish();
    } else if n == 2 {
      FirstStart();
    } else if n == 3 {
      FirstSave();
    } else if n == 7 {
      SecondStart();
    } else if n == 8 {
      SecondSave();
    } else {
      RunPauses(n);
    }
  }

  lemma RunEnds()
    ensures Init(RunState(0))
    ensures var s := RunState(10);
            && 1 in s.db.jobs && s.db.jobs[1].status == JobSucceeded && s.db.jobs[1].message == ""
            && 7 in s.db.sources && s.db.sources[7].job == 1 && s.db.sources[7].status == SourceSucceeded
            && s.db.sources[7].message == TROUBLE
  {
  }

  /** What the second worker stores is what processSource returns for a source in which it finds nothing. */
  lemma RunSavesResult()
    ensures var job := SourceRun.Job(Scheduled, Some(0.0), Some(1.0), 1);
            RunAction(8) == SaveOf("b", SourceRun.SucceededRow(FAILED, job, [], BatchImport.EMPTY))
  {
  }

  /**
   A source fails, its worker crashes before FinishJob, and the job is claimed again and succeeds: job and source are
   succeeded, and the source bears the message of the failure.
   */
  lemma SuccessKeepsOldMessage() returns (b: seq<State>, acts: seq<Action>)
    ensures CarryingBehavior(b, acts)
    ensures |acts| == 10
    ensures acts[8] == SaveOf("b", SourceRun.SucceededRow(FAILED, SourceRun.Job(Scheduled, Some(0.0), Some(1.0), 1), [],
                                                          BatchImport.EMPTY))
    ensures var s := b[10];
            && 1 in s.db.jobs && s.db.jobs[1].status == JobSucceeded && s.db.jobs[1].message == ""
            && 7 in s.db.sources && s.db.sources[7].job == 1 && s.db.sources[7].status == SourceSucceeded
            && s.db.sources[7].message == TROUBLE != ""
  {
    hide Enabled, Apply, Disciplined, Carries, RunState, RunAction, Init, SaveOf, SourceRun.SucceededRow, FAILED;
    b := seq(11, n requires 0 <= n => RunState(n));
    acts := seq(10, n requires 0 <= n => RunAction(n));
    RunEnds();
    RunSavesResult();
    forall n | 0 <= n < 10
      ensures StepAt(b, acts, n) && Disciplined(b[n], acts[n]) && Carries(b[n], acts[n])
    {
      EachRunStep(n);
    }
  }
}
