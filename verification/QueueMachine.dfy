/**
 Replicas on the job queue as a transition system: every SQL statement or transaction is one step, a worker may crash
 between any two steps, and a worker that lost its lease may go on.
 */
module QueueMachine {
  import opened Options
  import opened QueueStore

  /** What a claim read about one source of the job. */
  datatype Snapshot = Snapshot(id: SourceId, row: SourceRow)

  /** Local state of runNext: sources before `next` are behind it; `started` is between StartSource and FinishSource. */
  datatype Worker = Idle | Working(job: JobId, todo: seq<Snapshot>, next: nat, started: bool)

  /**
   The database and the workers, with a record of the run: the rows as first inserted, the order of insertion, of
   first claims and of first finishes, and for each owner and job the expiry of its last successful claim or renewal.
   */
  datatype State = State(now: int, db: Db, workers: map<Owner, Worker>, origin: Db,
                         created: seq<JobId>, claimed: seq<JobId>, finished: seq<JobId>,
                         leases: map<(Owner, JobId), int>)

  datatype Action =
    | Tick(time: int)
    | Create(job: JobId, row: JobRow, rows: map<SourceId, SourceRow>)
    | Claim(owner: Owner, job: JobId, lease: int, todo: seq<Snapshot>, locked: set<JobId>)
    | Renew(owner: Owner, job: JobId, lease: int)
    | Skip(owner: Owner)
    | Start(owner: Owner)
    | Save(owner: Owner, status: SourceStatus, totals: Totals, message: string)
    | Finish(owner: Owner)
    | Crash(owner: Owner)
    | Requeue(job: JobId)
    | Ack(job: JobId, actor: nat)

  function WorkerOf(s: State, w: Owner): Worker {
    if w in s.workers then s.workers[w] else Idle
  }

  predicate NewJob(row: JobRow, now: int) {
    && row.status == JobQueued && row.createdAt == now && row.totals == ZERO && row.errors == 0 && row.message == ""
    && !row.acknowledged && row.owner.None? && row.expires.None? && row.startedAt.None? && row.finishedAt.None?
  }

  predicate NewSource(row: SourceRow, j: JobId) {
    row.job == j && row.status == SourceQueued && row.totals == ZERO && row.message == ""
  }

  predicate SourceOutcome(s: SourceStatus) {
    s == SourceFailed || Delivered(s)
  }

  ghost predicate Enabled(s: State, a: Action) {
    match a
    case Tick(t) => s.now <= t
    case Create(j, row, rows) =>
      && j !in s.db.jobs && NewJob(row, s.now)
      && rows != map[] && rows.Keys !! s.db.sources.Keys && forall i :: i in rows ==> NewSource(rows[i], j)
    case Claim(w, j, _, _, locked) => WorkerOf(s, w).Idle? && FirstClaimable(s.db.jobs, j, s.now, locked)
    case Renew(_, _, _) => true
    case Skip(w) =>
      var x := WorkerOf(s, w);
      x.Working? && !x.started && x.next < |x.todo| && Delivered(x.todo[x.next].row.status)
    case Start(w) =>
      var x := WorkerOf(s, w);
      x.Working? && !x.started && x.next < |x.todo| && !Delivered(x.todo[x.next].row.status)
    case Save(w, status, _, _) =>
      var x := WorkerOf(s, w);
      x.Working? && x.started && x.next < |x.todo| && SourceOutcome(status)
    case Finish(w) =>
      var x := WorkerOf(s, w);
      x.Working? && !x.started && x.next >= |x.todo|
    case Crash(_) => true
    case Requeue(_) => true
    case Ack(_, _) => true
  }

  /** The worker is between StartSource and FinishSource. */
  function Begun(x: Worker): Worker
    requires x.Working?
  {
    x.(started := true)
  }

  /** The worker has passed a source. */
  function Passed(x: Worker): Worker
    requires x.Working?
  {
    x.(next := x.next + 1, started := false)
  }

  ghost function Apply(s: State, a: Action): State {
    match a
    case Tick(t) => s.(now := t)
    case Create(j, row, rows) =>
      s.(db := Db(s.db.jobs[j := row], s.db.sources + rows),
         origin := Db(s.origin.jobs[j := row], s.origin.sources + rows), created := s.created + [j])
    case Claim(w, j, lease, todo, _) =>
      s.(db := ClaimJob(s.db, j, w, s.now, lease), workers := s.workers[w := Working(j, todo, 0, false)],
         claimed := if j in s.claimed then s.claimed else s.claimed + [j],
         leases := s.leases[(w, j) := Expiry(s.now, lease)])
    case Renew(w, j, lease) =>
      if Owns(s.db, j, w) then
        s.(db := RenewLease(s.db, j, w, s.now, lease), leases := s.leases[(w, j) := Expiry(s.now, lease)])
      else s
    case Skip(w) =>
      var x := WorkerOf(s, w);
      if x.Working? then s.(workers := s.workers[w := Passed(x)]) else s
    case Start(w) =>
      var x := WorkerOf(s, w);
      if x.Working? && x.next < |x.todo| then
        s.(db := StartSource(s.db, x.todo[x.next].id), workers := s.workers[w := Begun(x)])
      else s
    case Save(w, status, totals, message) =>
      var x := WorkerOf(s, w);
      if x.Working? && x.next < |x.todo| then
        s.(db := FinishSource(s.db, x.todo[x.next].id, status, totals, message),
           workers := s.workers[w := Passed(x)])
      else s
    case Finish(w) =>
      var x := WorkerOf(s, w);
      if x.Working? then
        s.(db := FinishJob(s.db, x.job, s.now), workers := s.workers[w := Idle], leases := s.leases - {(w, x.job)},
           finished :=
             if x.job in s.finished || JobSources(s.db, x.job) == map[] then s.finished else s.finished + [x.job])
      else s
    case Crash(w) => s.(workers := s.workers[w := Idle])
    case Requeue(j) => s.(db := RequeueFailed(s.db, j))
    case Ack(j, actor) => s.(db := AcknowledgeJob(s.db, j, actor))
  }

  ghost predicate Init(s: State) {
    && s.db == Db(map[], map[]) && s.workers == map[] && s.origin == Db(map[], map[])
    && s.created == [] && s.claimed == [] && s.finished == [] && s.leases == map[]
  }

  ghost predicate StepAt(b: seq<State>, acts: seq<Action>, i: nat)
    requires i < |acts| && |b| == |acts| + 1
  {
    Enabled(b[i], acts[i]) && b[i + 1] == Apply(b[i], acts[i])
  }

  /** States reached one step after another from an initial state. */
  ghost predicate Behavior(b: seq<State>, acts: seq<Action>) {
    |b| == |acts| + 1 && Init(b[0]) && forall i :: 0 <= i < |acts| ==> StepAt(b, acts, i)
  }

  /** Claims and renewals ask for leases that do not lie in the past. */
  predicate ForwardLease(a: Action) {
    a.Claim? || a.Renew? ==> a.lease >= 0
  }

  ghost predicate Forward(acts: seq<Action>) {
    forall n :: 0 <= n < |acts| ==> ForwardLease(acts[n])
  }

  lemma StepResult(b: seq<State>, acts: seq<Action>, i: nat)
    requires Behavior(b, acts) && i < |acts|
    ensures b[i + 1] == Apply(b[i], acts[i])
  {
    assert StepAt(b, acts, i);
  }
}
