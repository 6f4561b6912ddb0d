/**
 Jobs that are interrupted and claimed again, with one worker on a job at a time: what a finished job says about its
 sources, that delivered sources are left alone, and that requeueing a failed job restores it as it was created.
 */
module CrashRecovery {
  import opened Options
  import opened QueueStore
  import opened QueueMachine

  type Jobs = map<JobId, JobRow>
  type Sources = map<SourceId, SourceRow>

  function Ids(todo: seq<Snapshot>): set<SourceId> {
    if todo == [] then {} else Ids(todo[..|todo| - 1]) + {todo[|todo| - 1].id}
  }

  ghost predicate OncePerSource(todo: seq<Snapshot>) {
    forall k, l :: 0 <= k < l < |todo| ==> todo[k].id != todo[l].id
  }

  lemma {:induction false} IdsContain(todo: seq<Snapshot>, k: nat)
    requires k < |todo|
    ensures todo[k].id in Ids(todo)
  {
    if k < |todo| - 1 {
      IdsContain(todo[..|todo| - 1], k);
    }
  }

  lemma {:induction false} IdsIndex(todo: seq<Snapshot>, i: SourceId) returns (k: nat)
    requires i in Ids(todo)
    ensures k < |todo| && todo[k].id == i
  {
    if todo[|todo| - 1].id == i {
      k := |todo| - 1;
    } else {
      k := IdsIndex(todo[..|todo| - 1], i);
    }
  }

  /** todo names every source of m once. */
  ghost predicate Covers(todo: seq<Snapshot>, m: Sources) {
    Ids(todo) == m.Keys && OncePerSource(todo)
  }

  /** todo lists every row of m once, as it is. */
  ghost predicate Lists(todo: seq<Snapshot>, m: Sources) {
    Covers(todo, m) && forall k :: 0 <= k < |todo| ==> todo[k].id in m && m[todo[k].id] == todo[k].row
  }

  /** No worker is on the job. */
  ghost predicate Unattended(workers: map<Owner, Worker>, j: JobId) {
    forall w :: w in workers && workers[w].Working? ==> workers[w].job != j
  }

  /** A job is claimed only when no other worker is still on it, and the claim reads all its sources. */
  ghost predicate Disciplined(s: State, a: Action) {
    a.Claim? ==>
      && Unattended(s.workers, a.job)
      && Lists(a.todo, JobSources(s.db, a.job))
  }

  ghost predicate DisciplinedBehavior(b: seq<State>, acts: seq<Action>) {
    Behavior(b, acts) && forall i :: 0 <= i < |acts| ==> Disciplined(b[i], acts[i])
  }

  // ----- Invariant -----

  /** The source row differs from the inserted one at most in its result. */
  predicate SourceFrom(row: SourceRow, inserted: SourceRow) {
    RequeuedSource(row) == inserted && NewSource(inserted, inserted.job)
  }

  /** The job row differs from the inserted one at most in its progress; only a requester can acknowledge it. */
  predicate JobFrom(row: JobRow, inserted: JobRow) {
    && RequeuedRow(row).(acknowledged := false) == inserted
    && (row.requestedBy.None? ==> !row.acknowledged)
  }

  ghost predicate JobRows(jobs: Jobs, inserted: Jobs) {
    jobs.Keys == inserted.Keys && forall j :: j in jobs ==> JobFrom(jobs[j], inserted[j])
  }

  ghost predicate SourceRows(sources: Sources, inserted: Sources, jobs: Jobs) {
    && sources.Keys == inserted.Keys
    && forall i :: i in sources ==> SourceFrom(sources[i], inserted[i]) && sources[i].job in jobs
  }

  /** A terminal row has given up its lease, bears its finish time, and has a message exactly when it has errors. */
  predicate Released(row: JobRow) {
    && row.owner.None? && row.expires.None? && row.finishedAt.Some?
    && row.message == if row.errors > 0 then SOME_SOURCES_FAILED else ""
  }

  /** A terminal job is the aggregate of sources that all have an outcome. */
  ghost predicate Settled(row: JobRow, m: Sources) {
    && (forall i :: i in m ==> SourceOutcome(m[i].status))
    && row.totals == Sum(m) && row.errors == |FailedIn(m)|
    && row.status == FinalStatus(|FailedIn(m)|, |DeliveredIn(m)|)
    && Released(row)
  }

  /** A running row has an owner, a lease and a start time. */
  predicate Leased(row: JobRow) {
    row.owner.Some? && row.expires.Some? && row.startedAt.Some?
  }

  /** A job row, its sources and its sources as inserted. */
  ghost predicate JobOk(row: JobRow, m: Sources, inserted: Sources) {
    && m != map[]
    && (row.status == JobQueued ==> RequeuedRow(row) == row && m == inserted)
    && (row.status == JobRunning ==> Leased(row))
    && (Terminal(row.status) ==> Settled(row, m))
  }

  /** Sources behind the worker have an outcome, the one in progress and those ahead are as it read and started them. */
  ghost predicate Progress(x: Worker, m: Sources)
    requires x.Working?
  {
    && x.next <= |x.todo| && (x.started ==> x.next < |x.todo|)
    && (forall k :: 0 <= k < |x.todo| ==> x.todo[k].id in m && RowAt(x, k, m[x.todo[k].id]))
  }

  predicate RowAt(x: Worker, k: nat, row: SourceRow)
    requires x.Working? && k < |x.todo|
  {
    if k < x.next then SourceOutcome(row.status)
    else if k == x.next && x.started then row == StartedSource(x.todo[k].row)
    else row == x.todo[k].row
  }

  ghost predicate OnTrack(x: Worker, jobs: Jobs, m: Sources)
    requires x.Working?
  {
    && x.job in jobs && jobs[x.job].status == JobRunning
    && Covers(x.todo, m) && Progress(x, m)
  }

  ghost predicate JobsOk(jobs: Jobs, sources: Sources, inserted: Sources) {
    forall j :: j in jobs ==> JobOk(jobs[j], SourcesOf(sources, j), SourcesOf(inserted, j))
  }

  ghost predicate WorkersOnTrack(workers: map<Owner, Worker>, jobs: Jobs, sources: Sources) {
    forall w :: w in workers && workers[w].Working? ==> OnTrack(workers[w], jobs, SourcesOf(sources, workers[w].job))
  }

  ghost predicate Exclusive(workers: map<Owner, Worker>) {
    forall v, w :: v in workers && w in workers && v != w && workers[v].Working? && workers[w].Working? ==>
      workers[v].job != workers[w].job
  }

  ghost predicate Consistent(jobs: Jobs, sources: Sources, insertedJobs: Jobs, inserted: Sources,
                             workers: map<Owner, Worker>) {
    && JobRows(jobs, insertedJobs) && SourceRows(sources, inserted, jobs) && JobsOk(jobs, sources, inserted)
    && WorkersOnTrack(workers, jobs, sources) && Exclusive(workers)
  }

  ghost predicate Inv(s: State) {
    Consistent(s.db.jobs, s.db.sources, s.origin.jobs, s.origin.sources, s.workers)
  }

  // ----- Changes to one job row -----

  lemma JobRowsUpdate(jobs: Jobs, insertedJobs: Jobs, j: JobId, row: JobRow)
    requires JobRows(jobs, insertedJobs) && j in jobs && JobFrom(row, insertedJobs[j])
    ensures JobRows(jobs[j := row], insertedJobs)
  {
  }

  lemma SourceRowsUpdate(sources: Sources, inserted: Sources, jobs: Jobs, j: JobId, row: JobRow)
    requires SourceRows(sources, inserted, jobs)
    ensures SourceRows(sources, inserted, jobs[j := row])
  {
  }

  lemma JobsOkUpdate(jobs: Jobs, sources: Sources, inserted: Sources, j: JobId, row: JobRow)
    requires JobsOk(jobs, sources, inserted)
    requires JobOk(row, SourcesOf(sources, j), SourcesOf(inserted, j))
    ensures JobsOk(jobs[j := row], sources, inserted)
  {
  }

  /** Workers stay on track when the row of j changes, provided a worker on j finds it running. */
  lemma OnTrackUpdate(workers: map<Owner, Worker>, jobs: Jobs, sources: Sources, j: JobId, row: JobRow)
    requires WorkersOnTrack(workers, jobs, sources)
    requires row.status == JobRunning || Unattended(workers, j)
    ensures WorkersOnTrack(workers, jobs[j := row], sources)
  {
  }

  lemma NobodyOn(workers: map<Owner, Worker>, jobs: Jobs, sources: Sources, j: JobId)
    requires WorkersOnTrack(workers, jobs, sources) && j in jobs && jobs[j].status != JobRunning
    ensures Unattended(workers, j)
  {
  }

  lemma JobRowUpdate(jobs: Jobs, sources: Sources, insertedJobs: Jobs, inserted: Sources, workers: map<Owner, Worker>,
                     j: JobId, row: JobRow)
    requires Consistent(jobs, sources, insertedJobs, inserted, workers) && j in jobs
    requires JobFrom(row, insertedJobs[j]) && JobOk(row, SourcesOf(sources, j), SourcesOf(inserted, j))
    requires row.status == JobRunning || Unattended(workers, j)
    ensures Consistent(jobs[j := row], sources, insertedJobs, inserted, workers)
  {
    JobRowsUpdate(jobs, insertedJobs, j, row);
    SourceRowsUpdate(sources, inserted, jobs, j, row);
    JobsOkUpdate(jobs, sources, inserted, j, row);
    OnTrackUpdate(workers, jobs, sources, j, row);
  }

  lemma RowsOf(s: State, j: JobId)
    requires Inv(s) && j in s.db.jobs
    ensures JobFrom(s.db.jobs[j], s.origin.jobs[j])
    ensures JobOk(s.db.jobs[j], SourcesOf(s.db.sources, j), SourcesOf(s.origin.sources, j))
  {
  }

  lemma RenewKeepsInv(s: State, a: Action)
    requires Inv(s) && a.Renew?
    ensures Inv(Apply(s, a))
  {
    if Owns(s.db, a.job, a.owner) {
      RowsOf(s, a.job);
      JobRowUpdate(s.db.jobs, s.db.sources, s.origin.jobs, s.origin.sources, s.workers, a.job,
                   s.db.jobs[a.job].(expires := Some(Expiry(s.now, a.lease))));
    }
  }

  lemma AcknowledgedRowOk(row: JobRow, m: Sources, inserted: Sources, insertedRow: JobRow)
    requires JobOk(row, m, inserted) && JobFrom(row, insertedRow) && Terminal(row.status) && row.requestedBy.Some?
    ensures JobOk(AcknowledgedRow(row), m, inserted) && JobFrom(AcknowledgedRow(row), insertedRow)
  {
  }

  lemma AckStep(s: State, a: Action)
    requires a.Ack? && a.job in s.db.jobs
    requires s.db.jobs[a.job].requestedBy == Some(a.actor) && Terminal(s.db.jobs[a.job].status)
    ensures var t := Apply(s, a);
            && t.db.sources == s.db.sources && t.origin == s.origin && t.workers == s.workers
            && t.db.jobs == s.db.jobs[a.job := AcknowledgedRow(s.db.jobs[a.job])]
  {
  }

  lemma AckKeepsInv(s: State, a: Action)
    requires Inv(s) && a.Ack?
    ensures Inv(Apply(s, a))
  {
    hide JobsOk, SourceRows, WorkersOnTrack, Exclusive, JobOk, JobFrom, SourcesOf, Unattended;
    var j := a.job;
    if j in s.db.jobs && s.db.jobs[j].requestedBy == Some(a.actor) && Terminal(s.db.jobs[j].status) {
      RowsOf(s, j);
      NobodyOn(s.workers, s.db.jobs, s.db.sources, j);
      AcknowledgedRowOk(s.db.jobs[j], SourcesOf(s.db.sources, j), SourcesOf(s.origin.sources, j), s.origin.jobs[j]);
      JobRowUpdate(s.db.jobs, s.db.sources, s.origin.jobs, s.origin.sources, s.workers, j,
                   AcknowledgedRow(s.db.jobs[j]));
      AckStep(s, a);
    }
  }

  // ----- Changes to one worker -----

  lemma WorkerUpdate(workers: map<Owner, Worker>, jobs: Jobs, sources: Sources, w: Owner, x: Worker)
    requires WorkersOnTrack(workers, jobs, sources) && Exclusive(workers)
    requires x.Working? ==> OnTrack(x, jobs, SourcesOf(sources, x.job))
    requires x.Working? ==> forall v :: v in workers && v != w && workers[v].Working? ==> workers[v].job != x.job
    ensures WorkersOnTrack(workers[w := x], jobs, sources) && Exclusive(workers[w := x])
  {
  }

  lemma ClaimedRowOk(row: JobRow, m: Sources, inserted: Sources, insertedRow: JobRow, w: Owner, now: int, lease: int)
    requires JobOk(row, m, inserted) && JobFrom(row, insertedRow)
    ensures var claimed := ClaimedRow(row, w, now, lease);
            JobOk(claimed, m, inserted) && JobFrom(claimed, insertedRow)
  {
  }

  lemma ClaimedOnTrack(j: JobId, todo: seq<Snapshot>, jobs: Jobs, m: Sources)
    requires j in jobs && jobs[j].status == JobRunning && Lists(todo, m)
    ensures OnTrack(Working(j, todo, 0, false), jobs, m)
  {
  }

  lemma ClaimKeepsInv(s: State, a: Action)
    requires Inv(s) && a.Claim? && a.job in s.db.jobs && Disciplined(s, a)
    ensures Inv(Apply(s, a))
  {
    var j, m := a.job, SourcesOf(s.db.sources, a.job);
    var row := ClaimedRow(s.db.jobs[j], a.owner, s.now, a.lease);
    RowsOf(s, j);
    ClaimedRowOk(s.db.jobs[j], m, SourcesOf(s.origin.sources, j), s.origin.jobs[j], a.owner, s.now, a.lease);
    JobRowUpdate(s.db.jobs, s.db.sources, s.origin.jobs, s.origin.sources, s.workers, j, row);
    ClaimedOnTrack(j, a.todo, s.db.jobs[j := row], m);
    WorkerUpdate(s.workers, s.db.jobs[j := row], s.db.sources, a.owner, Working(j, a.todo, 0, false));
  }

  /** When the worker has gone through its list, every source of the job has an outcome. */
  lemma AllHaveOutcome(x: Worker, m: Sources)
    requires x.Working? && Covers(x.todo, m) && Progress(x, m) && x.next == |x.todo|
    ensures forall i :: i in m ==> SourceOutcome(m[i].status)
  {
    forall i | i in m ensures SourceOutcome(m[i].status) {
      var k := IdsIndex(x.todo, i);
    }
  }

  lemma FinishedRowOk(row: JobRow, m: Sources, inserted: Sources, insertedRow: JobRow, now: int)
    requires m != map[] && JobFrom(row, insertedRow) && forall i :: i in m ==> SourceOutcome(m[i].status)
    ensures var finished := AggregatedRow(row, m, now);
            JobOk(finished, m, inserted) && JobFrom(finished, insertedRow)
  {
  }

  lemma FinishStep(s: State, a: Action)
    requires a.Finish? && WorkerOf(s, a.owner).Working? && WorkerOf(s, a.owner).job in s.db.jobs
    requires SourcesOf(s.db.sources, WorkerOf(s, a.owner).job) != map[]
    ensures var j, t := WorkerOf(s, a.owner).job, Apply(s, a);
            var m := SourcesOf(s.db.sources, j);
            && t.db.sources == s.db.sources && t.origin == s.origin && t.workers == s.workers[a.owner := Idle]
            && t.db.jobs == s.db.jobs[j := AggregatedRow(s.db.jobs[j], m, s.now)]
  {
  }

  /** A worker that leaves its job leaves nobody on it. */
  lemma LeavesJob(s: State, w: Owner)
    requires Inv(s)
    ensures Consistent(s.db.jobs, s.db.sources, s.origin.jobs, s.origin.sources, s.workers[w := Idle])
    ensures WorkerOf(s, w).Working? ==> Unattended(s.workers[w := Idle], WorkerOf(s, w).job)
  {
    WorkerUpdate(s.workers, s.db.jobs, s.db.sources, w, Idle);
  }

  lemma Arrived(s: State, w: Owner)
    requires Inv(s) && WorkerOf(s, w).Working? && WorkerOf(s, w).next >= |WorkerOf(s, w).todo|
    ensures var j := WorkerOf(s, w).job;
            var m := SourcesOf(s.db.sources, j);
            && j in s.db.jobs && m != map[] && JobFrom(s.db.jobs[j], s.origin.jobs[j])
            && forall i :: i in m ==> SourceOutcome(m[i].status)
  {
    RowsOf(s, WorkerOf(s, w).job);
    AllHaveOutcome(WorkerOf(s, w), SourcesOf(s.db.sources, WorkerOf(s, w).job));
  }

  lemma FinishedConsistent(s: State, w: Owner)
    requires Inv(s) && WorkerOf(s, w).Working? && WorkerOf(s, w).next >= |WorkerOf(s, w).todo|
    ensures var j := WorkerOf(s, w).job;
            var m := SourcesOf(s.db.sources, j);
            && j in s.db.jobs && m != map[]
            && Consistent(s.db.jobs[j := AggregatedRow(s.db.jobs[j], m, s.now)], s.db.sources,
                          s.origin.jobs, s.origin.sources, s.workers[w := Idle])
  {
    var j := WorkerOf(s, w).job;
    Arrived(s, w);
    LeavesJob(s, w);
    var m := SourcesOf(s.db.sources, j);
    FinishedRowOk(s.db.jobs[j], m, SourcesOf(s.origin.sources, j), s.origin.jobs[j], s.now);
    JobRowUpdate(s.db.jobs, s.db.sources, s.origin.jobs, s.origin.sources, s.workers[w := Idle], j,
                 AggregatedRow(s.db.jobs[j], m, s.now));
  }

  lemma FinishKeepsInv(s: State, a: Action)
    requires Inv(s) && a.Finish? && WorkerOf(s, a.owner).Working?
    requires WorkerOf(s, a.owner).next >= |WorkerOf(s, a.owner).todo|
    ensures Inv(Apply(s, a))
  {
    FinishedConsistent(s, a.owner);
    FinishStep(s, a);
  }

  lemma CrashKeepsInv(s: State, w: Owner)
    requires Inv(s)
    ensures Inv(s.(workers := s.workers[w := Idle]))
  {
    LeavesJob(s, w);
  }

  lemma SkipKeepsInv(s: State, a: Action)
    requires Inv(s) && a.Skip? && Enabled(s, a)
    ensures Inv(Apply(s, a))
  {
    var x := WorkerOf(s, a.owner);
    var m := SourcesOf(s.db.sources, x.job);
    SkippedOnTrack(x, s.db.jobs, m);
    WorkerUpdate(s.workers, s.db.jobs, s.db.sources, a.owner, Passed(x));
  }

  lemma SkippedOnTrack(x: Worker, jobs: Jobs, m: Sources)
    requires x.Working? && OnTrack(x, jobs, m) && !x.started && x.next < |x.todo| &&
             Delivered(x.todo[x.next].row.status)
    ensures OnTrack(Passed(x), jobs, m)
  {
    var y := Passed(x);
    forall k | 0 <= k < |y.todo| ensures y.todo[k].id in m && RowAt(y, k, m[y.todo[k].id]) {
      assert RowAt(x, k, m[x.todo[k].id]);
    }
  }

  // ----- Changes to one source row -----

  lemma SourcesOfUpdate(sources: Sources, i: SourceId, row: SourceRow)
    requires i in sources && row.job == sources[i].job
    ensures forall j :: j != row.job ==> SourcesOf(sources[i := row], j) == SourcesOf(sources, j)
    ensures SourcesOf(sources[i := row], row.job) == SourcesOf(sources, row.job)[i := row]
  {
  }

  /** A running job may have any sources; the other jobs keep theirs. */
  lemma JobsOkSource(jobs: Jobs, sources: Sources, inserted: Sources, i: SourceId, row: SourceRow)
    requires JobsOk(jobs, sources, inserted) && i in sources && row.job == sources[i].job
    requires row.job in jobs && jobs[row.job].status == JobRunning
    ensures JobsOk(jobs, sources[i := row], inserted)
  {
    SourcesOfUpdate(sources, i, row);
    assert JobOk(jobs[row.job], SourcesOf(sources, row.job), SourcesOf(inserted, row.job));
  }

  lemma OnTrackSource(workers: map<Owner, Worker>, jobs: Jobs, sources: Sources, w: Owner, x: Worker, i: SourceId,
                      row: SourceRow)
    requires WorkersOnTrack(workers, jobs, sources) && Exclusive(workers) && i in sources && row.job == sources[i].job
    requires w in workers && workers[w].Working? && x.Working? && x.job == workers[w].job == row.job
    requires OnTrack(x, jobs, SourcesOf(sources, x.job)[i := row])
    ensures WorkersOnTrack(workers[w := x], jobs, sources[i := row]) && Exclusive(workers[w := x])
  {
    SourcesOfUpdate(sources, i, row);
    forall v | v in workers && v != w && workers[v].Working?
      ensures OnTrack(workers[v], jobs, SourcesOf(sources[i := row], workers[v].job))
    {
      assert OnTrack(workers[v], jobs, SourcesOf(sources, workers[v].job));
    }
  }

  lemma SourceUpdate(jobs: Jobs, sources: Sources, insertedJobs: Jobs, inserted: Sources, workers: map<Owner, Worker>,
                     w: Owner, x: Worker, i: SourceId, row: SourceRow)
    requires Consistent(jobs, sources, insertedJobs, inserted, workers)
    requires w in workers && workers[w].Working? && x.Working? && x.job == workers[w].job == row.job
    requires i in sources && row.job == sources[i].job && SourceFrom(row, inserted[i])
    requires OnTrack(x, jobs, SourcesOf(sources, x.job)[i := row])
    ensures Consistent(jobs, sources[i := row], insertedJobs, inserted, workers[w := x])
  {
    OnTrackSource(workers, jobs, sources, w, x, i, row);
    JobsOkSource(jobs, sources, inserted, i, row);
    SourceRowUpdate(sources, inserted, jobs, i, row);
  }

  lemma SourceRowUpdate(sources: Sources, inserted: Sources, jobs: Jobs, i: SourceId, row: SourceRow)
    requires SourceRows(sources, inserted, jobs) && i in sources && SourceFrom(row, inserted[i]) && row.job in jobs
    ensures SourceRows(sources[i := row], inserted, jobs)
  {
  }

  /** The row of the current source changes and the worker moves to y. */
  lemma NextOnTrack(x: Worker, y: Worker, jobs: Jobs, m: Sources, row: SourceRow)
    requires x.Working? && OnTrack(x, jobs, m) && x.next < |x.todo|
    requires y.Working? && y.job == x.job && y.todo == x.todo
    requires (y.next == x.next && y.started && !x.started && row == StartedSource(x.todo[x.next].row))
          || (y.next == x.next + 1 && !y.started && SourceOutcome(row.status))
    ensures OnTrack(y, jobs, m[x.todo[x.next].id := row])
  {
    var i := x.todo[x.next].id;
    IdsContain(x.todo, x.next);
    var m' := m[i := row];
    assert m'.Keys == m.Keys;
    forall k | 0 <= k < |y.todo| ensures y.todo[k].id in m' && RowAt(y, k, m'[y.todo[k].id]) {
      assert RowAt(x, k, m[x.todo[k].id]);
    }
  }

  /** The source the worker is at, as a row of its job. */
  lemma CurrentSource(s: State, w: Owner) returns (i: SourceId)
    requires Inv(s) && WorkerOf(s, w).Working? && WorkerOf(s, w).next < |WorkerOf(s, w).todo|
    ensures var x := WorkerOf(s, w);
            && i == x.todo[x.next].id && i in s.db.sources && s.db.sources[i].job == x.job
            && SourceFrom(s.db.sources[i], s.origin.sources[i])
            && OnTrack(x, s.db.jobs, SourcesOf(s.db.sources, x.job)) && RowAt(x, x.next, s.db.sources[i])
  {
    var x := WorkerOf(s, w);
    i := x.todo[x.next].id;
    assert OnTrack(x, s.db.jobs, SourcesOf(s.db.sources, x.job));
  }

  lemma StartStep(s: State, a: Action)
    requires a.Start? && Enabled(s, a)
    requires var x := WorkerOf(s, a.owner); x.todo[x.next].id in s.db.sources
    ensures var x, t := WorkerOf(s, a.owner), Apply(s, a);
            var i := x.todo[x.next].id;
            && t.db.jobs == s.db.jobs && t.origin == s.origin && t.workers == s.workers[a.owner := Begun(x)]
            && t.db.sources == s.db.sources[i := StartedSource(s.db.sources[i])]
  {
  }

  lemma StartKeepsInv(s: State, a: Action)
    requires Inv(s) && a.Start? && Enabled(s, a)
    ensures Inv(Apply(s, a))
  {
    var x := WorkerOf(s, a.owner);
    var i := CurrentSource(s, a.owner);
    var row := StartedSource(s.db.sources[i]);
    NextOnTrack(x, Begun(x), s.db.jobs, SourcesOf(s.db.sources, x.job), row);
    SourceUpdate(s.db.jobs, s.db.sources, s.origin.jobs, s.origin.sources, s.workers, a.owner, Begun(x), i, row);
    StartStep(s, a);
  }

  lemma SaveStep(s: State, a: Action)
    requires a.Save? && Enabled(s, a)
    requires var x := WorkerOf(s, a.owner); x.todo[x.next].id in s.db.sources
    ensures var x, t := WorkerOf(s, a.owner), Apply(s, a);
            var i := x.todo[x.next].id;
            && t.db.jobs == s.db.jobs && t.origin == s.origin && t.workers == s.workers[a.owner := Passed(x)]
            && t.db.sources == s.db.sources[i := SavedSource(s.db.sources[i], a.status, a.totals, a.message)]
  {
  }

  lemma SaveKeepsInv(s: State, a: Action)
    requires Inv(s) && a.Save? && Enabled(s, a)
    ensures Inv(Apply(s, a))
  {
    var x := WorkerOf(s, a.owner);
    var i := CurrentSource(s, a.owner);
    var row := SavedSource(s.db.sources[i], a.status, a.totals, a.message);
    NextOnTrack(x, Passed(x), s.db.jobs, SourcesOf(s.db.sources, x.job), row);
    SourceUpdate(s.db.jobs, s.db.sources, s.origin.jobs, s.origin.sources, s.workers, a.owner, Passed(x), i, row);
    SaveStep(s, a);
  }

  // ----- Creation and requeueing -----

  ghost predicate NoneOf(sources: Sources, j: JobId) {
    forall i :: i in sources ==> sources[i].job != j
  }

  lemma AddedSources(sources: Sources, rows: Sources, j: JobId)
    requires NoneOf(sources, j) && forall i :: i in rows ==> rows[i].job == j
    requires rows.Keys !! sources.Keys
    ensures SourcesOf(sources + rows, j) == rows
    ensures forall k :: k != j ==> SourcesOf(sources + rows, k) == SourcesOf(sources, k)
  {
  }

  lemma NewRows(j: JobId, row: JobRow, rows: Sources, now: int)
    requires NewJob(row, now) && rows != map[] && forall i :: i in rows ==> NewSource(rows[i], j)
    ensures JobFrom(row, row) && JobOk(row, rows, rows)
    ensures forall i :: i in rows ==> SourceFrom(rows[i], rows[i])
  {
  }

  lemma AddedSourceRows(sources: Sources, inserted: Sources, jobs: Jobs, rows: Sources, j: JobId, row: JobRow)
    requires SourceRows(sources, inserted, jobs) && rows.Keys !! sources.Keys && j !in jobs
    requires forall i :: i in rows ==> SourceFrom(rows[i], rows[i]) && rows[i].job == j
    ensures SourceRows(sources + rows, inserted + rows, jobs[j := row])
    ensures NoneOf(sources, j) && NoneOf(inserted, j)
  {
    forall i | i in inserted ensures inserted[i].job != j {
      assert SourceFrom(sources[i], inserted[i]);
    }
  }

  lemma AddedJobsOk(jobs: Jobs, sources: Sources, inserted: Sources, rows: Sources, j: JobId, row: JobRow)
    requires JobsOk(jobs, sources, inserted) && NoneOf(sources, j) && NoneOf(inserted, j) && j !in jobs
    requires rows.Keys !! sources.Keys && rows.Keys !! inserted.Keys && JobOk(row, rows, rows)
    requires forall i :: i in rows ==> rows[i].job == j
    ensures JobsOk(jobs[j := row], sources + rows, inserted + rows)
  {
    AddedSources(sources, rows, j);
    AddedSources(inserted, rows, j);
  }

  lemma AddedOnTrack(workers: map<Owner, Worker>, jobs: Jobs, sources: Sources, rows: Sources, j: JobId, row: JobRow)
    requires WorkersOnTrack(workers, jobs, sources) && NoneOf(sources, j) && j !in jobs
    requires rows.Keys !! sources.Keys && forall i :: i in rows ==> rows[i].job == j
    ensures WorkersOnTrack(workers, jobs[j := row], sources + rows)
  {
    AddedSources(sources, rows, j);
    forall w | w in workers && workers[w].Working?
      ensures OnTrack(workers[w], jobs[j := row], SourcesOf(sources + rows, workers[w].job))
    {
      assert OnTrack(workers[w], jobs, SourcesOf(sources, workers[w].job));
    }
  }

  lemma AddedJobRows(jobs: Jobs, insertedJobs: Jobs, j: JobId, row: JobRow)
    requires JobRows(jobs, insertedJobs) && JobFrom(row, row)
    ensures JobRows(jobs[j := row], insertedJobs[j := row])
  {
  }

  lemma CreatedConsistent(jobs: Jobs, sources: Sources, insertedJobs: Jobs, inserted: Sources,
                          workers: map<Owner, Worker>, j: JobId, row: JobRow, rows: Sources, now: int)
    requires Consistent(jobs, sources, insertedJobs, inserted, workers) && j !in jobs
    requires NewJob(row, now) && rows != map[] && rows.Keys !! sources.Keys
    requires forall i :: i in rows ==> NewSource(rows[i], j)
    ensures Consistent(jobs[j := row], sources + rows, insertedJobs[j := row], inserted + rows, workers)
  {
    NewRows(j, row, rows, now);
    AddedJobRows(jobs, insertedJobs, j, row);
    AddedSourceRows(sources, inserted, jobs, rows, j, row);
    AddedJobsOk(jobs, sources, inserted, rows, j, row);
    AddedOnTrack(workers, jobs, sources, rows, j, row);
  }

  lemma CreateKeepsInv(s: State, a: Action)
    requires Inv(s) && a.Create? && Enabled(s, a)
    ensures Inv(Apply(s, a))
  {
    CreatedConsistent(s.db.jobs, s.db.sources, s.origin.jobs, s.origin.sources, s.workers, a.job, a.row, a.rows, s.now);
  }

  /** A failed job has only failed sources. */
  lemma AllFailed(row: JobRow, m: Sources)
    requires Settled(row, m) && row.status == JobFailed
    ensures forall i :: i in m ==> m[i].status == SourceFailed
  {
    forall i | i in m ensures m[i].status == SourceFailed {
      assert Delivered(m[i].status) ==> i in DeliveredIn(m);
    }
  }

  lemma RequeuedSourcesOf(sources: Sources, inserted: Sources, jobs: Jobs, j: JobId)
    requires SourceRows(sources, inserted, jobs)
    requires forall i :: i in SourcesOf(sources, j) ==> sources[i].status == SourceFailed
    ensures SourcesOf(RequeuedSources(sources, j), j) == SourcesOf(inserted, j)
    ensures forall k :: k != j ==> SourcesOf(RequeuedSources(sources, j), k) == SourcesOf(sources, k)
  {
    forall i | i in sources
      ensures RequeuedSources(sources, j)[i] == if sources[i].job == j then inserted[i] else sources[i]
    {
      assert sources[i].job == j ==> i in SourcesOf(sources, j);
    }
    assert forall i :: i in sources ==> inserted[i].job == sources[i].job;
  }

  lemma RequeuedSourceRows(sources: Sources, inserted: Sources, jobs: Jobs, j: JobId)
    requires SourceRows(sources, inserted, jobs)
    ensures SourceRows(RequeuedSources(sources, j), inserted, jobs)
  {
  }

  lemma RequeuedOnTrack(workers: map<Owner, Worker>, jobs: Jobs, sources: Sources, j: JobId, sources': Sources)
    requires WorkersOnTrack(workers, jobs, sources) && Unattended(workers, j)
    requires forall k :: k != j ==> SourcesOf(sources', k) == SourcesOf(sources, k)
    ensures WorkersOnTrack(workers, jobs, sources')
  {
  }

  lemma RequeuedJobsOk(jobs: Jobs, sources: Sources, inserted: Sources, j: JobId, row: JobRow, sources': Sources)
    requires JobsOk(jobs, sources, inserted)
    requires JobOk(row, SourcesOf(sources', j), SourcesOf(inserted, j))
    requires forall k :: k != j ==> SourcesOf(sources', k) == SourcesOf(sources, k)
    ensures JobsOk(jobs[j := row], sources', inserted)
  {
  }

  lemma RequeuedRowOk(row: JobRow, insertedRow: JobRow, m: Sources)
    requires JobFrom(row, insertedRow) && m != map[]
    ensures JobFrom(RequeuedRow(row), insertedRow) && JobOk(RequeuedRow(row), m, m)
  {
  }

  lemma InsertedSome(sources: Sources, inserted: Sources, jobs: Jobs, j: JobId)
    requires SourceRows(sources, inserted, jobs) && SourcesOf(sources, j) != map[]
    ensures SourcesOf(inserted, j) != map[]
  {
    var i :| i in SourcesOf(sources, j);
    assert SourceFrom(sources[i], inserted[i]);
    assert i in SourcesOf(inserted, j);
  }

  lemma RequeuedConsistent(jobs: Jobs, sources: Sources, insertedJobs: Jobs, inserted: Sources,
                           workers: map<Owner, Worker>, j: JobId)
    requires Consistent(jobs, sources, insertedJobs, inserted, workers) && j in jobs && jobs[j].status == JobFailed
    ensures Consistent(jobs[j := RequeuedRow(jobs[j])], RequeuedSources(sources, j), insertedJobs, inserted, workers)
    ensures SourcesOf(RequeuedSources(sources, j), j) == SourcesOf(inserted, j)
  {
    var m := SourcesOf(sources, j);
    assert JobOk(jobs[j], m, SourcesOf(inserted, j));
    AllFailed(jobs[j], m);
    RequeuedSourcesOf(sources, inserted, jobs, j);
    InsertedSome(sources, inserted, jobs, j);
    RequeuedRowOk(jobs[j], insertedJobs[j], SourcesOf(inserted, j));
    NobodyOn(workers, jobs, sources, j);
    var row, sources' := RequeuedRow(jobs[j]), RequeuedSources(sources, j);
    JobRowsUpdate(jobs, insertedJobs, j, row);
    RequeuedSourceRows(sources, inserted, jobs, j);
    SourceRowsUpdate(sources', inserted, jobs, j, row);
    RequeuedJobsOk(jobs, sources, inserted, j, row, sources');
    RequeuedOnTrack(workers, jobs, sources, j, sources');
    OnTrackUpdate(workers, jobs, sources', j, row);
  }

  lemma RequeueKeepsInv(s: State, a: Action)
    requires Inv(s) && a.Requeue?
    ensures Inv(Apply(s, a))
  {
    if a.job in s.db.jobs && s.db.jobs[a.job].status == JobFailed {
      RequeuedConsistent(s.db.jobs, s.db.sources, s.origin.jobs, s.origin.sources, s.workers, a.job);
    }
  }

  lemma StepKeepsInv(s: State, a: Action)
    requires Inv(s) && Enabled(s, a) && Disciplined(s, a)
    ensures Inv(Apply(s, a))
  {
    match a
    case Tick(_) =>
    case Create(_, _, _) => CreateKeepsInv(s, a);
    case Claim(_, _, _, _, _) => ClaimKeepsInv(s, a);
    case Renew(_, _, _) => RenewKeepsInv(s, a);
    case Skip(_) => SkipKeepsInv(s, a);
    case Start(_) => StartKeepsInv(s, a);
    case Save(_, _, _, _) => SaveKeepsInv(s, a);
    case Finish(_) => FinishKeepsInv(s, a);
    case Crash(w) => CrashKeepsInv(s, w);
    case Requeue(_) => RequeueKeepsInv(s, a);
    case Ack(_, _) => AckKeepsInv(s, a);
  }

  lemma {:induction false} InvAlong(b: seq<State>, acts: seq<Action>, n: nat)
    requires DisciplinedBehavior(b, acts) && n <= |acts|
    ensures Inv(b[n])
  {
    if n == 0 {
      InitInv(b[0]);
    } else {
      InvAlong(b, acts, n - 1);
      assert StepAt(b, acts, n - 1) && Disciplined(b[n - 1], acts[n - 1]);
      StepKeepsInv(b[n - 1], acts[n - 1]);
      StepResult(b, acts, n - 1);
    }
  }

  lemma InitInv(s: State)
    requires Init(s)
    ensures Inv(s)
  {
  }

  // ----- What a finished job says -----

  lemma FailedOrDelivered(m: Sources)
    requires forall i :: i in m ==> SourceOutcome(m[i].status)
    ensures |FailedIn(m)| + |DeliveredIn(m)| == |m|
  {
    assert FailedIn(m) !! DeliveredIn(m);
    assert FailedIn(m) + DeliveredIn(m) == m.Keys;
  }

  lemma NoneFailed(m: Sources)
    ensures |FailedIn(m)| == 0 <==> forall i :: i in m ==> m[i].status != SourceFailed
    ensures |DeliveredIn(m)| == 0 <==> forall i :: i in m ==> !Delivered(m[i].status)
  {
    assert FailedIn(m) == {} <==> forall i :: i in m ==> i !in FailedIn(m);
    assert DeliveredIn(m) == {} <==> forall i :: i in m ==> i !in DeliveredIn(m);
  }

  lemma SettledMeaning(row: JobRow, m: Sources)
    requires Settled(row, m) && m != map[]
    ensures row.errors + |DeliveredIn(m)| == |m|
    ensures row.status == JobSucceeded <==> forall i :: i in m ==> Delivered(m[i].status)
    ensures row.status == JobFailed <==> forall i :: i in m ==> m[i].status == SourceFailed
    ensures row.status == JobPartial <==>
              ((exists i :: i in m && m[i].status == SourceFailed) && (exists i :: i in m && Delivered(m[i].status)))
  {
    FailedOrDelivered(m);
    NoneFailed(m);
    assert |m| == |m.Keys| > 0;
  }

  /**
   However often a job is interrupted and claimed again, one worker at a time: once it is finished, every source has an
   outcome, its totals are the sums over its sources, errors and successes add up to the number of sources, its status
   says exactly whether none, all or some of them failed, and its lease is gone.
   */
  lemma FinishedJobIsSettled(b: seq<State>, acts: seq<Action>, n: nat, j: JobId)
    requires DisciplinedBehavior(b, acts) && n <= |acts|
    requires j in b[n].db.jobs && Terminal(b[n].db.jobs[j].status)
    ensures var m, row := JobSources(b[n].db, j), b[n].db.jobs[j];
            && m != map[] && Released(row) && (forall i :: i in m ==> SourceOutcome(m[i].status))
            && row.totals == Sum(m) && row.errors == |FailedIn(m)| && row.errors + |DeliveredIn(m)| == |m|
            && (row.status == JobSucceeded <==> forall i :: i in m ==> Delivered(m[i].status))
            && (row.status == JobFailed <==> forall i :: i in m ==> m[i].status == SourceFailed)
            && (row.status == JobPartial <==>
                  ((exists i :: i in m && m[i].status == SourceFailed) &&
                   (exists i :: i in m && Delivered(m[i].status))))
  {
    InvAlong(b, acts, n);
    RowsOf(b[n], j);
    SettledMeaning(b[n].db.jobs[j], JobSources(b[n].db, j));
  }

  // ----- Delivered sources -----

  /** The source a Start or Save action is about. */
  predicate Touches(s: State, a: Action, i: SourceId) {
    (a.Start? || a.Save?) && var x := WorkerOf(s, a.owner);
                             x.Working? && x.next < |x.todo| && x.todo[x.next].id == i
  }

  lemma DeliveredUntouched(s: State, a: Action, i: SourceId)
    requires Inv(s) && Enabled(s, a) && i in s.db.sources && Delivered(s.db.sources[i].status)
    ensures !Touches(s, a, i)
  {
    hide Inv, SourcesOf, OnTrack, SourceFrom;
    if Touches(s, a, i) {
      assert !RowAt(WorkerOf(s, a.owner), WorkerOf(s, a.owner).next, s.db.sources[i]);
      var current := CurrentSource(s, a.owner);
    }
  }

  lemma UntouchedKept(s: State, a: Action, i: SourceId)
    requires Enabled(s, a) && i in s.db.sources && Delivered(s.db.sources[i].status) && !Touches(s, a, i)
    ensures i in Apply(s, a).db.sources && Apply(s, a).db.sources[i] == s.db.sources[i]
  {
  }

  /** A source recorded as succeeded or truncated is never processed again, and its row stays as it is. */
  lemma {:induction false} DeliveredStays(b: seq<State>, acts: seq<Action>, i: SourceId, k: nat, n: nat)
    requires DisciplinedBehavior(b, acts) && k <= n <= |acts|
    requires i in b[k].db.sources && Delivered(b[k].db.sources[i].status)
    ensures i in b[n].db.sources && b[n].db.sources[i] == b[k].db.sources[i]
    ensures n < |acts| ==> !Touches(b[n], acts[n], i)
  {
    if k < n {
      DeliveredStays(b, acts, i, k, n - 1);
      assert StepAt(b, acts, n - 1);
      UntouchedKept(b[n - 1], acts[n - 1], i);
      StepResult(b, acts, n - 1);
    }
    if n < |acts| {
      InvAlong(b, acts, n);
      assert StepAt(b, acts, n);
      DeliveredUntouched(b[n], acts[n], i);
    }
  }

  // ----- Requeueing restores the job as created -----

  ghost predicate Recorded(origin: Db, j: JobId, row: JobRow, rows: Sources) {
    j in origin.jobs && origin.jobs[j] == row && SourcesOf(origin.sources, j) == rows
  }

  lemma FreshJob(s: State, a: Action)
    requires Inv(s) && Enabled(s, a) && a.Create?
    ensures a.job !in s.origin.jobs && NoneOf(s.origin.sources, a.job) && a.rows.Keys !! s.origin.sources.Keys
  {
    NewRows(a.job, a.row, a.rows, s.now);
    AddedSourceRows(s.db.sources, s.origin.sources, s.db.jobs, a.rows, a.job, a.row);
  }

  lemma NewRecord(origin: Db, j: JobId, row: JobRow, rows: Sources)
    requires j !in origin.jobs && NoneOf(origin.sources, j) && rows.Keys !! origin.sources.Keys
    requires forall i :: i in rows ==> rows[i].job == j
    ensures var t := Db(origin.jobs[j := row], origin.sources + rows);
            && Recorded(t, j, row, rows)
            && forall k, r, m :: Recorded(origin, k, r, m) ==> Recorded(t, k, r, m)
  {
    AddedSources(origin.sources, rows, j);
  }

  lemma StepRecords(s: State, a: Action)
    requires Inv(s) && Enabled(s, a)
    ensures a.Create? ==> Recorded(Apply(s, a).origin, a.job, a.row, a.rows)
    ensures forall k, r, m :: Recorded(s.origin, k, r, m) ==> Recorded(Apply(s, a).origin, k, r, m)
  {
    if a.Create? {
      FreshJob(s, a);
      NewRecord(s.origin, a.job, a.row, a.rows);
    } else {
      assert Apply(s, a).origin == s.origin;
    }
  }

  lemma {:induction false} RecordKept(b: seq<State>, acts: seq<Action>, c: nat, n: nat)
    requires DisciplinedBehavior(b, acts) && c < n <= |acts| && acts[c].Create?
    ensures Recorded(b[n].origin, acts[c].job, acts[c].row, acts[c].rows)
  {
    InvAlong(b, acts, n - 1);
    assert StepAt(b, acts, n - 1);
    StepResult(b, acts, n - 1);
    StepRecords(b[n - 1], acts[n - 1]);
    if c < n - 1 {
      RecordKept(b, acts, c, n - 1);
    }
  }

  lemma RestoredRow(row: JobRow, inserted: JobRow)
    requires JobFrom(row, inserted)
    ensures RequeuedRow(row).(acknowledged := false) == inserted
    ensures inserted.requestedBy.None? ==> RequeuedRow(row) == inserted
  {
  }

  lemma RequeuedRecord(s: State, j: JobId, row: JobRow, rows: Sources)
    requires Inv(s) && Recorded(s.origin, j, row, rows) && j in s.db.jobs && s.db.jobs[j].status == JobFailed
    ensures SourcesOf(RequeuedSources(s.db.sources, j), j) == rows
    ensures RequeuedRow(s.db.jobs[j]).(acknowledged := false) == row
    ensures row.requestedBy.None? ==> RequeuedRow(s.db.jobs[j]) == row
  {
    RequeuedConsistent(s.db.jobs, s.db.sources, s.origin.jobs, s.origin.sources, s.workers, j);
    RestoredRow(s.db.jobs[j], row);
  }

  lemma RequeueStep(s: State, j: JobId)
    requires j in s.db.jobs
    ensures s.db.jobs[j].status == JobFailed ==>
              Apply(s, Requeue(j)).db == Db(s.db.jobs[j := RequeuedRow(s.db.jobs[j])], RequeuedSources(s.db.sources, j))
    ensures s.db.jobs[j].status != JobFailed ==> Apply(s, Requeue(j)).db == s.db
  {
  }

  /**
   Requeueing a failed job puts back exactly what its creation inserted: every source queued with zero counters, and the
   job row queued without totals, errors, lease, start or finish time. Only an acknowledgement survives, and the jobs
   that the code requeues, bootstrap jobs, have no requester who could have made one.
   */
  lemma RequeueRestoresCreation(b: seq<State>, acts: seq<Action>, c: nat, n: nat)
    requires DisciplinedBehavior(b, acts) && c < n < |acts|
    requires acts[c].Create? && acts[n] == Requeue(acts[c].job)
    ensures var j := acts[c].job;
            && j in b[n].db.jobs
            && (b[n].db.jobs[j].status == JobFailed ==>
                  && j in b[n + 1].db.jobs && JobSources(b[n + 1].db, j) == acts[c].rows
                  && b[n + 1].db.jobs[j].(acknowledged := false) == acts[c].row
                  && (acts[c].row.requestedBy.None? ==> b[n + 1].db.jobs[j] == acts[c].row))
            && (b[n].db.jobs[j].status != JobFailed ==> b[n + 1].db == b[n].db)
  {
    InvAlong(b, acts, n);
    RecordKept(b, acts, c, n);
    StepResult(b, acts, n);
    RequeueStep(b[n], acts[c].job);
    if b[n].db.jobs[acts[c].job].status == JobFailed {
      RequeuedRecord(b[n], acts[c].job, acts[c].row, acts[c].rows);
    }
  }

  // ----- Start times -----

  /** Only a requeue of the job takes its start time back. */
  lemma {:induction false} StartTimeKept(b: seq<State>, acts: seq<Action>, j: JobId, k: nat, n: nat)
    requires Behavior(b, acts) && k <= n <= |acts|
    requires j in b[k].db.jobs && b[k].db.jobs[j].startedAt.Some?
    requires forall i :: k <= i < n ==> acts[i] != Requeue(j)
    ensures j in b[n].db.jobs && b[n].db.jobs[j].startedAt == b[k].db.jobs[j].startedAt
  {
    if k < n {
      StartTimeKept(b, acts, j, k, n - 1);
      assert StepAt(b, acts, n - 1);
      StartTimeStep(b[n - 1], acts[n - 1], j);
      StepResult(b, acts, n - 1);
    }
  }

  lemma StartTimeStep(s: State, a: Action, j: JobId)
    requires Enabled(s, a) && a != Requeue(j) && j in s.db.jobs && s.db.jobs[j].startedAt.Some?
    ensures j in Apply(s, a).db.jobs && Apply(s, a).db.jobs[j].startedAt == s.db.jobs[j].startedAt
  {
    hide SourcesOf, Sum, FailedIn, DeliveredIn, FirstClaimable;
  }
}
