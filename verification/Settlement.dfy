/**
 When finished jobs agree with their sources: the exact condition, over all behaviours of the queue, stale workers
 included.
 */
module Settlement {
  import opened Options
  import opened QueueStore
  import opened QueueMachine
  import opened CrashRecovery

  /** The row is the aggregate of its sources, of which there is at least one. */
  ghost predicate Aggregated(row: JobRow, m: Sources) {
    m != map[] && Settled(row, m)
  }

  predicate Ended(jobs: Jobs, j: JobId) {
    j in jobs && Terminal(jobs[j].status)
  }

  /** Every finished job agrees with its sources. */
  ghost predicate AllSettled(jobs: Jobs, sources: Sources) {
    forall j :: Ended(jobs, j) ==> Aggregated(jobs[j], SourcesOf(sources, j))
  }

  /** The result says of the source what its row says already. */
  predicate SameResult(row: SourceRow, status: SourceStatus, totals: Totals) {
    (status == SourceFailed <==> row.status == SourceFailed) && totals == row.totals
  }

  /** The source the worker is at. */
  function CurrentId(x: Worker): SourceId
    requires x.Working? && x.next < |x.todo|
  {
    x.todo[x.next].id
  }

  /**
   A step after which some finished job does not agree with its sources: a source of a finished job is started or gets
   another result, or a job is finished while one of its sources has no outcome.
   */
  ghost predicate Unsettles(s: State, a: Action) {
    (a.Start? || a.Save? || a.Finish?) && WorkerOf(s, a.owner).Working? &&
    var x := WorkerOf(s, a.owner);
    if a.Finish? then
      x.job in s.db.jobs && exists i :: i in SourcesOf(s.db.sources, x.job) && !SourceOutcome(s.db.sources[i].status)
    else
      && x.next < |x.todo| && CurrentId(x) in s.db.sources
      && Ended(s.db.jobs, s.db.sources[CurrentId(x)].job)
      && (a.Save? ==> !SameResult(s.db.sources[CurrentId(x)], a.status, a.totals))
  }

  // ----- One source row -----

  lemma OtherResult(row: JobRow, m: Sources, i: SourceId, new': SourceRow)
    requires Settled(row, m) && i in m && SourceOutcome(new'.status)
    ensures Settled(row, m[i := new']) <==> SameResult(m[i], new'.status, new'.totals)
  {
    hide Sum, FailedIn, DeliveredIn;
    var n := m[i := new'];
    assert n - {i} == m - {i};
    SumAnyOrder(m, i);
    SumAnyOrder(n, i);
    RemoveOne(m, i);
    RemoveOne(n, i);
    assert SourceOutcome(m[i].status);
    assert forall k :: k in n ==> SourceOutcome(n[k].status);
  }

  lemma NoOutcome(row: JobRow, m: Sources, i: SourceId, new': SourceRow)
    requires i in m && !SourceOutcome(new'.status)
    ensures !Settled(row, m[i := new'])
  {
    hide Sum, FailedIn, DeliveredIn;
    assert i in m[i := new'];
  }

  /** A source row changes; the finished jobs stay settled exactly when the job of the row does. */
  lemma SourceChange(jobs: Jobs, sources: Sources, i: SourceId, row: SourceRow)
    requires AllSettled(jobs, sources) && i in sources && row.job == sources[i].job
    ensures AllSettled(jobs, sources[i := row]) <==>
              (Ended(jobs, row.job) ==> Aggregated(jobs[row.job], SourcesOf(sources, row.job)[i := row]))
  {
    hide Aggregated, SourcesOf;
    SourcesOfUpdate(sources, i, row);
    forall j | j != row.job && Ended(jobs, j) ensures Aggregated(jobs[j], SourcesOf(sources[i := row], j)) {
      assert SourcesOf(sources[i := row], j) == SourcesOf(sources, j);
    }
  }

  lemma InItsJob(sources: Sources, i: SourceId)
    requires i in sources
    ensures i in SourcesOf(sources, sources[i].job) && SourcesOf(sources, sources[i].job)[i] == sources[i]
  {
  }

  lemma StartedIff(jobs: Jobs, sources: Sources, i: SourceId)
    requires AllSettled(jobs, sources) && i in sources
    ensures AllSettled(jobs, sources[i := StartedSource(sources[i])]) <==> !Ended(jobs, sources[i].job)
  {
    hide AllSettled, SourcesOf, Settled;
    InItsJob(sources, i);
    SourceChange(jobs, sources, i, StartedSource(sources[i]));
    if Ended(jobs, sources[i].job) {
      NoOutcome(jobs[sources[i].job], SourcesOf(sources, sources[i].job), i, StartedSource(sources[i]));
    }
  }

  lemma SavedIff(jobs: Jobs, sources: Sources, i: SourceId, status: SourceStatus, totals: Totals, message: string)
    requires AllSettled(jobs, sources) && i in sources && SourceOutcome(status)
    ensures AllSettled(jobs, sources[i := SavedSource(sources[i], status, totals, message)]) <==>
              !Ended(jobs, sources[i].job) || SameResult(sources[i], status, totals)
  {
    hide SourcesOf, Settled;
    var j := sources[i].job;
    InItsJob(sources, i);
    SourceChange(jobs, sources, i, SavedSource(sources[i], status, totals, message));
    if Ended(jobs, j) {
      assert Aggregated(jobs[j], SourcesOf(sources, j));
      OtherResult(jobs[j], SourcesOf(sources, j), i, SavedSource(sources[i], status, totals, message));
      assert i in SourcesOf(sources, j)[i := SavedSource(sources[i], status, totals, message)];
    }
  }

  // ----- One job row -----

  /** A job row changes; the finished jobs stay settled exactly when the new row is settled or not finished. */
  lemma JobChange(jobs: Jobs, sources: Sources, j: JobId, row: JobRow)
    requires AllSettled(jobs, sources)
    ensures AllSettled(jobs[j := row], sources) <==> (Terminal(row.status) ==> Aggregated(row, SourcesOf(sources, j)))
  {
    hide Aggregated, SourcesOf;
    var after := jobs[j := row];
    forall k | k != j && Ended(after, k) ensures Aggregated(after[k], SourcesOf(sources, k)) {
      assert Ended(jobs, k);
    }
    assert Ended(after, j) <==> Terminal(row.status);
  }

  lemma AggregatedIff(row: JobRow, m: Sources, now: int)
    requires m != map[]
    ensures Terminal(AggregatedRow(row, m, now).status)
    ensures Aggregated(AggregatedRow(row, m, now), m) <==> forall i :: i in m ==> SourceOutcome(m[i].status)
  {
  }

  lemma FinishedIff(jobs: Jobs, sources: Sources, j: JobId, now: int)
    requires AllSettled(jobs, sources) && j in jobs && SourcesOf(sources, j) != map[]
    ensures AllSettled(jobs[j := AggregatedRow(jobs[j], SourcesOf(sources, j), now)], sources) <==>
              forall i :: i in SourcesOf(sources, j) ==> SourceOutcome(sources[i].status)
  {
    hide AllSettled, Aggregated, AggregatedRow;
    JobChange(jobs, sources, j, AggregatedRow(jobs[j], SourcesOf(sources, j), now));
    AggregatedIff(jobs[j], SourcesOf(sources, j), now);
  }

  // ----- Steps -----

  ghost predicate SettledState(s: State) {
    AllSettled(s.db.jobs, s.db.sources)
  }

  lemma StartIff(s: State, a: Action)
    requires SettledState(s) && Enabled(s, a) && a.Start?
    ensures SettledState(Apply(s, a)) <==> !Unsettles(s, a)
  {
    hide AllSettled;
    var x := WorkerOf(s, a.owner);
    if CurrentId(x) in s.db.sources {
      StartedIff(s.db.jobs, s.db.sources, CurrentId(x));
    }
  }

  lemma SaveIff(s: State, a: Action)
    requires SettledState(s) && Enabled(s, a) && a.Save?
    ensures SettledState(Apply(s, a)) <==> !Unsettles(s, a)
  {
    hide AllSettled, SameResult;
    var x := WorkerOf(s, a.owner);
    if CurrentId(x) in s.db.sources {
      SavedIff(s.db.jobs, s.db.sources, CurrentId(x), a.status, a.totals, a.message);
    }
  }

  lemma FinishIff(s: State, a: Action)
    requires SettledState(s) && Enabled(s, a) && a.Finish?
    ensures SettledState(Apply(s, a)) <==> !Unsettles(s, a)
  {
    hide AllSettled, AggregatedRow;
    var j := WorkerOf(s, a.owner).job;
    var m := SourcesOf(s.db.sources, j);
    if j in s.db.jobs && m != map[] {
      FinishedIff(s.db.jobs, s.db.sources, j, s.now);
      assert forall i :: i in m ==> m[i] == s.db.sources[i];
    }
  }

  lemma RequeueSettled(jobs: Jobs, sources: Sources, j: JobId)
    requires AllSettled(jobs, sources) && j in jobs
    ensures AllSettled(jobs[j := RequeuedRow(jobs[j])], RequeuedSources(sources, j))
  {
    hide Aggregated;
    var jobs', sources' := jobs[j := RequeuedRow(jobs[j])], RequeuedSources(sources, j);
    forall k | Ended(jobs', k) ensures Aggregated(jobs'[k], SourcesOf(sources', k)) {
      assert k != j;
      assert Ended(jobs, k);
      OtherJobsSources(sources, j, k);
    }
  }

  lemma OtherJobsSources(sources: Sources, j: JobId, k: JobId)
    requires k != j
    ensures SourcesOf(RequeuedSources(sources, j), k) == SourcesOf(sources, k)
  {
  }

  lemma CreateSettled(jobs: Jobs, sources: Sources, j: JobId, row: JobRow, rows: Sources)
    requires AllSettled(jobs, sources) && j !in jobs && !Terminal(row.status)
    requires rows.Keys !! sources.Keys && forall i :: i in rows ==> rows[i].job == j
    ensures AllSettled(jobs[j := row], sources + rows)
  {
    hide Aggregated;
    forall k | Ended(jobs[j := row], k) ensures Aggregated(jobs[j := row][k], SourcesOf(sources + rows, k)) {
      assert k != j && Ended(jobs, k);
      MoreSources(sources, rows, j, k);
    }
  }

  lemma MoreSources(sources: Sources, rows: Sources, j: JobId, k: JobId)
    requires k != j && rows.Keys !! sources.Keys && forall i :: i in rows ==> rows[i].job == j
    ensures SourcesOf(sources + rows, k) == SourcesOf(sources, k)
  {
  }

  /** Statements that change one job row without finishing it. */
  lemma RowStepSettled(s: State, a: Action)
    requires SettledState(s) && Enabled(s, a) && (a.Claim? || a.Renew?)
    ensures SettledState(Apply(s, a))
  {
    hide AllSettled, FirstClaimable, Aggregated;
    if a.Claim? {
      ClaimableIn(s.db.jobs, a.job, s.now, a.locked);
      JobChange(s.db.jobs, s.db.sources, a.job, ClaimedRow(s.db.jobs[a.job], a.owner, s.now, a.lease));
    } else if Owns(s.db, a.job, a.owner) {
      JobChange(s.db.jobs, s.db.sources, a.job, s.db.jobs[a.job].(expires := Some(Expiry(s.now, a.lease))));
    }
  }

  lemma ClaimableIn(jobs: Jobs, j: JobId, now: int, locked: set<JobId>)
    requires FirstClaimable(jobs, j, now, locked)
    ensures j in jobs
  {
  }

  lemma AckSettled(s: State, a: Action)
    requires SettledState(s) && a.Ack?
    ensures SettledState(Apply(s, a))
  {
    hide SourcesOf, Sum, FailedIn, DeliveredIn;
    var j := a.job;
    if j in s.db.jobs && s.db.jobs[j].requestedBy == Some(a.actor) && Terminal(s.db.jobs[j].status) {
      assert Ended(s.db.jobs, j);
      JobChange(s.db.jobs, s.db.sources, j, AcknowledgedRow(s.db.jobs[j]));
    }
  }

  /** One step: finished jobs go on agreeing with their sources exactly when it does not unsettle one. */
  lemma StepKeepsSettledIff(s: State, a: Action)
    requires SettledState(s) && Enabled(s, a)
    ensures SettledState(Apply(s, a)) <==> !Unsettles(s, a)
  {
    hide AllSettled;
    match a
    case Create(j, row, rows) => CreateSettled(s.db.jobs, s.db.sources, j, row, rows);
    case Claim(_, _, _, _, _) => RowStepSettled(s, a);
    case Renew(_, _, _) => RowStepSettled(s, a);
    case Start(_) => StartIff(s, a);
    case Save(_, _, _, _) => SaveIff(s, a);
    case Finish(_) => FinishIff(s, a);
    case Requeue(j) =>
      if j in s.db.jobs {
        RequeueSettled(s.db.jobs, s.db.sources, j);
      }
    case Ack(_, _) => AckSettled(s, a);
    case _ =>
  }

  // ----- Behaviours -----

  lemma InitSettled(s: State)
    requires Init(s)
    ensures SettledState(s)
  {
  }

  lemma {:induction false} SettledSoFar(b: seq<State>, acts: seq<Action>, n: nat)
    requires Behavior(b, acts) && n <= |acts| && forall k :: 0 <= k < n ==> !Unsettles(b[k], acts[k])
    ensures SettledState(b[n])
  {
    hide Unsettles, Enabled, Apply, AllSettled;
    if n == 0 {
      InitSettled(b[0]);
    } else {
      SettledSoFar(b, acts, n - 1);
      assert StepAt(b, acts, n - 1);
      StepKeepsSettledIff(b[n - 1], acts[n - 1]);
      StepResult(b, acts, n - 1);
    }
  }

  /** Every finished job agrees with its sources in every state of a behaviour if and only if no step unsettles one. */
  lemma SettledIffNothingUnsettles(b: seq<State>, acts: seq<Action>)
    requires Behavior(b, acts)
    ensures (forall n :: 0 <= n <= |acts| ==> SettledState(b[n])) <==>
            (forall n :: 0 <= n < |acts| ==> !Unsettles(b[n], acts[n]))
  {
    hide Unsettles, Enabled, Apply, SettledState;
    if forall n :: 0 <= n < |acts| ==> !Unsettles(b[n], acts[n]) {
      forall n | 0 <= n <= |acts| ensures SettledState(b[n]) {
        SettledSoFar(b, acts, n);
      }
    }
    if forall n :: 0 <= n <= |acts| ==> SettledState(b[n]) {
      forall n | 0 <= n < |acts| ensures !Unsettles(b[n], acts[n]) {
        assert StepAt(b, acts, n) && SettledState(b[n]) && SettledState(b[n + 1]);
        StepKeepsSettledIff(b[n], acts[n]);
        StepResult(b, acts, n);
      }
    }
  }

  /** What a finished job says, in any behaviour up to the first step that unsettles one. */
  lemma FinishedJobMeaning(b: seq<State>, acts: seq<Action>, n: nat, j: JobId)
    requires Behavior(b, acts) && n <= |acts| && forall k :: 0 <= k < n ==> !Unsettles(b[k], acts[k])
    requires Ended(b[n].db.jobs, j)
    ensures var m, row := JobSources(b[n].db, j), b[n].db.jobs[j];
            && m != map[] && Released(row) && (forall i :: i in m ==> SourceOutcome(m[i].status))
            && row.totals == Sum(m) && row.errors == |FailedIn(m)| && row.errors + |DeliveredIn(m)| == |m|
            && (row.status == JobSucceeded <==> forall i :: i in m ==> Delivered(m[i].status))
            && (row.status == JobFailed <==> forall i :: i in m ==> m[i].status == SourceFailed)
  {
    hide Unsettles, StepAt, Init, SourcesOf;
    SettledSoFar(b, acts, n);
    assert Aggregated(b[n].db.jobs[j], JobSources(b[n].db, j));
    SettledMeaning(b[n].db.jobs[j], JobSources(b[n].db, j));
  }

  lemma ConsistentSettled(s: State)
    requires Inv(s)
    ensures SettledState(s)
  {
    forall j | Ended(s.db.jobs, j) ensures Aggregated(s.db.jobs[j], SourcesOf(s.db.sources, j)) {
      RowsOf(s, j);
    }
  }

  /** With one worker on a job at a time no step unsettles a finished job. */
  lemma OneWorkerNeverUnsettles(b: seq<State>, acts: seq<Action>)
    requires DisciplinedBehavior(b, acts)
    ensures forall n :: 0 <= n < |acts| ==> !Unsettles(b[n], acts[n])
  {
    hide Unsettles, Enabled, Apply, Inv, SettledState, Disciplined;
    forall n | 0 <= n <= |acts| ensures SettledState(b[n]) {
      InvAlong(b, acts, n);
      ConsistentSettled(b[n]);
    }
    SettledIffNothingUnsettles(b, acts);
  }
}
