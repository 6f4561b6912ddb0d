/**
 Why single flight needs that nothing is requeued: a requeued older job is claimed although a younger one runs, and then
 the expired younger one is claimed as well.
 */
module RequeueRace {
  import opened Options
  import opened QueueStore
  import opened QueueMachine
  import opened WitnessRows
  import SingleFlight

  const OLD: JobRow := QueuedJob(0)
  const YOUNG: JobRow := QueuedJob(1)
  const OLD_BY_A: JobRow := ClaimedRow(OLD, "a", 1, 5)
  const OLD_FAILED: JobRow := FinishedRow(OLD_BY_A, ZERO, 1, 0, 1)
  const OLD_BY_C: JobRow := ClaimedRow(OLD, "c", 7, 5)
  const YOUNG_BY_B: JobRow := ClaimedRow(YOUNG, "b", 1, 5)
  const YOUNG_BY_D: JobRow := ClaimedRow(YOUNG_BY_B, "d", 7, 5)
  const S1: SourceRow := QueuedSource(1)
  const S2: SourceRow := QueuedSource(2)
  const READ1: seq<Snapshot> := [Snapshot(11, S1)]
  const READ2: seq<Snapshot> := [Snapshot(12, S2)]

  function RaceAction(n: nat): Action {
    if n == 0 then Create(1, OLD, map[11 := S1])
    else if n == 1 then Tick(1)
    else if n == 2 then Create(2, YOUNG, map[12 := S2])
    else if n == 3 then Claim("a", 1, 5, READ1, {})
    else if n == 4 then Start("a")
    else if n == 5 then Save("a", SourceFailed, ZERO, "")
    else if n == 6 then Finish("a")
    else if n == 7 then Claim("b", 2, 5, READ2, {})
    else if n == 8 then Tick(7)
    else if n == 9 then Requeue(1)
    else if n == 10 then Claim("c", 1, 5, READ1, {})
    else Claim("d", 2, 5, READ2, {})
  }

  function OldRow(n: nat): JobRow {
    if n <= 3 || n == 10 then OLD else if n <= 6 then OLD_BY_A else if n <= 9 then OLD_FAILED else OLD_BY_C
  }

  function YoungRow(n: nat): JobRow {
    if n <= 7 then YOUNG else if n <= 11 then YOUNG_BY_B else YOUNG_BY_D
  }

  function OldSource(n: nat): SourceRow {
    if n <= 4 || n >= 10 then S1
    else if n == 5 then StartedSource(S1) else SavedSource(StartedSource(S1), SourceFailed, ZERO, "")
  }

  function RaceDb(n: nat): Db {
    if n == 0 then Db(map[], map[])
    else if n <= 2 then Db(map[1 := OldRow(n)], map[11 := OldSource(n)])
    else Db(map[1 := OldRow(n), 2 := YoungRow(n)], map[11 := OldSource(n), 12 := S2])
  }

  function RaceWorkers(n: nat): map<Owner, Worker> {
    var a := if n <= 4 then Working(1, READ1, 0, false) else if n == 5 then Working(1, READ1, 0, true)
             else if n == 6 then Working(1, READ1, 1, false) else Idle;
    var b, c, d := Working(2, READ2, 0, false), Working(1, READ1, 0, false), Working(2, READ2, 0, false);
    if n <= 3 then map[]
    else if n <= 7 then map["a" := a]
    else if n <= 10 then map["a" := a, "b" := b]
    else if n == 11 then map["a" := a, "b" := b, "c" := c]
    else map["a" := a, "b" := b, "c" := c, "d" := d]
  }

  function RaceLeases(n: nat): map<(Owner, JobId), int> {
    if n <= 3 || n == 7 then map[]
    else if n <= 6 then map[("a", 1) := 6]
    else if n <= 10 then map[("b", 2) := 6]
    else if n == 11 then map[("b", 2) := 6, ("c", 1) := 12]
    else map[("b", 2) := 6, ("c", 1) := 12, ("d", 2) := 12]
  }

  function RaceOrigin(n: nat): Db {
    if n == 0 then Db(map[], map[])
    else if n <= 2 then Db(map[1 := OLD], map[11 := S1])
    else Db(map[1 := OLD, 2 := YOUNG], map[11 := S1, 12 := S2])
  }

  function RaceState(n: nat): State {
    State(if n <= 1 then 0 else if n <= 8 then 1 else 7, RaceDb(n), RaceWorkers(n), RaceOrigin(n),
          if n == 0 then [] else if n <= 2 then [1] else [1, 2],
          if n <= 3 then [] else if n <= 7 then [1] else [1, 2],
          if n <= 6 then [] else [1], RaceLeases(n))
  }

  ghost predicate RaceStepOk(n: nat) {
    && Enabled(RaceState(n), RaceAction(n)) && Apply(RaceState(n), RaceAction(n)) == RaceState(n + 1)
    && (n != 9 ==> SingleFlight.Disciplined(RaceState(n), RaceAction(n)))
  }

  // ----- What each step does to the tables -----

  lemma ClaimSteps()
    ensures ClaimJob(RaceDb(3), 1, "a", 1, 5) == RaceDb(4)
    ensures ClaimJob(RaceDb(7), 2, "b", 1, 5) == RaceDb(8)
  {
    hide OLD, YOUNG, S1, S2, ClaimedRow;
  }

  lemma LateClaimSteps()
    ensures ClaimJob(RaceDb(10), 1, "c", 7, 5) == RaceDb(11)
    ensures ClaimJob(RaceDb(11), 2, "d", 7, 5) == RaceDb(12)
  {
    hide OLD, YOUNG, S1, S2, ClaimedRow;
  }

  lemma SourceSteps()
    ensures StartSource(RaceDb(4), 11) == RaceDb(5)
    ensures FinishSource(RaceDb(5), 11, SourceFailed, ZERO, "") == RaceDb(6)
  {
    hide OLD, YOUNG, S2, StartedSource, SavedSource, OldRow, YoungRow;
    assert OldRow(4) == OldRow(5) == OldRow(6) by {
      SameRows();
    }
    assert YoungRow(4) == YoungRow(5) == YoungRow(6) by {
      SameRows();
    }
  }

  lemma SameRows()
    ensures OldRow(4) == OldRow(5) == OldRow(6) == OLD_BY_A
    ensures YoungRow(4) == YoungRow(5) == YoungRow(6) == YoungRow(7)
  {
    hide OLD_BY_A, YOUNG;
  }

  lemma OneFailedSource(m: map<SourceId, SourceRow>, i: SourceId)
    requires m.Keys == {i} && m[i].status == SourceFailed && m[i].totals == ZERO
    ensures AggregatedRow(OLD_BY_A, m, 1) == OLD_FAILED
  {
    hide FinishedRow, OLD_BY_A, FailedIn, DeliveredIn, Sum;
    OneSum(m, i);
    OneFailed(m, i);
  }

  lemma FinishStep()
    ensures JobSources(RaceDb(6), 1) != map[] && FinishJob(RaceDb(6), 1, 1) == RaceDb(7)
  {
    hide AggregatedRow, OLD_BY_A, OLD_FAILED, YOUNG, Sum, FailedIn, DeliveredIn;
    var m := JobSources(RaceDb(6), 1);
    assert m == map[11 := OldSource(6)];
    OneFailedSource(m, 11);
  }

  lemma RequeueStep()
    ensures RequeueFailed(RaceDb(9), 1) == RaceDb(10)
  {
    assert RequeuedRow(OLD_FAILED) == OLD;
    assert RequeuedSources(RaceDb(9).sources, 1) == RaceDb(10).sources;
  }

  // ----- Which row a claim takes -----

  lemma FirstClaims()
    ensures FirstClaimable(RaceDb(3).jobs, 1, 1, {}) && FirstClaimable(RaceDb(7).jobs, 2, 1, {})
  {
    assert !AnyLive(RaceDb(3).jobs, 1) && !AnyLive(RaceDb(7).jobs, 1);
    assert 1 in RaceDb(3).jobs && 2 in RaceDb(7).jobs;
  }

  lemma RacingClaims()
    ensures FirstClaimable(RaceDb(10).jobs, 1, 7, {}) && FirstClaimable(RaceDb(11).jobs, 2, 7, {})
  {
    assert !AnyLive(RaceDb(10).jobs, 7);
    assert 1 in RaceDb(10).jobs && 2 in RaceDb(11).jobs;
  }

  // ----- The steps -----

  lemma RaceCreates(n: nat)
    requires n == 0 || n == 2
    ensures RaceStepOk(n)
  {
    assert 11 in map[11 := S1] && 12 in map[12 := S2];
    assert map[11 := S1] + map[12 := S2] == map[11 := S1, 12 := S2];
  }

  lemma RaceTick()
    ensures RaceStepOk(1)
  {
  }

  lemma RaceExpires()
    ensures RaceStepOk(8)
  {
    hide OLD, YOUNG, OLD_FAILED, YOUNG_BY_B, S1, S2;
  }

  lemma RaceFirstClaims(n: nat)
    requires n == 3 || n == 7
    ensures RaceStepOk(n)
  {
    hide RaceDb, ClaimJob, FirstClaimable, S1, S2;
    FirstClaims();
    ClaimSteps();
  }

  lemma RaceLateClaims(n: nat)
    requires n == 10 || n == 11
    ensures RaceStepOk(n)
  {
    hide RaceDb, ClaimJob, FirstClaimable, S1, S2;
    RacingClaims();
    LateClaimSteps();
  }

  lemma RaceStart()
    ensures RaceStepOk(4)
  {
    hide RaceDb, StartSource;
    SourceSteps();
  }

  lemma RaceSave()
    ensures RaceStepOk(5)
  {
    hide RaceDb, FinishSource;
    SourceSteps();
  }

  lemma RaceFinish()
    ensures RaceStepOk(6)
  {
    hide RaceDb, FinishJob, JobSources, S1;
    FinishStep();
    assert RaceLeases(6) - {("a", 1)} == RaceLeases(7);
  }

  lemma RaceRequeue()
    ensures RaceStepOk(9)
  {
    hide RaceDb, RequeueFailed;
    RequeueStep();
  }

  lemma EachRaceStep(n: nat)
    requires n < 12
    ensures RaceStepOk(n)
  {
    hide RaceStepOk;
    if n == 0 || n == 2 {
      RaceCreates(n);
    } else if n == 1 {
      RaceTick();
    } else if n == 3 || n == 7 {
      RaceFirstClaims(n);
    } else if n == 4 {
      RaceStart();
    } else if n == 5 {
      RaceSave();
    } else if n == 6 {
      RaceFinish();
    } else if n == 8 {
      RaceExpires();
    } else if n == 9 {
      RaceRequeue();
    } else {
      RaceLateClaims(n);
    }
  }

  lemma RaceEnds()
    ensures Init(RaceState(0))
    ensures var s := RaceState(12);
            1 in s.db.jobs && 2 in s.db.jobs && Live(s.db.jobs[1], s.now) && Live(s.db.jobs[2], s.now)
  {
  }

  /** One requeue, everything else in order: two jobs end up with live leases at the same time. */
  lemma RequeueBreaksSingleFlight() returns (b: seq<State>, acts: seq<Action>)
    ensures Behavior(b, acts)
    ensures forall n :: 0 <= n < |acts| && n != 9 ==> SingleFlight.Disciplined(b[n], acts[n])
    ensures var s := b[|b| - 1];
            1 in s.db.jobs && 2 in s.db.jobs && Live(s.db.jobs[1], s.now) && Live(s.db.jobs[2], s.now)
  {
    hide Enabled, Apply, SingleFlight.Disciplined, RaceState, RaceAction, Init, Live;
    b := seq(13, n requires 0 <= n => RaceState(n));
    acts := seq(12, n requires 0 <= n => RaceAction(n));
    RaceEnds();
    forall n | 0 <= n < 12
      ensures StepAt(b, acts, n)
      ensures n != 9 ==> SingleFlight.Disciplined(b[n], acts[n])
    {
      EachRaceStep(n);
    }
  }
}
