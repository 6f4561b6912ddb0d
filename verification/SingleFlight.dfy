/** First in, first out: without requeueing and without skipped rows at most one job runs at any time. */
module SingleFlight {
  import opened Options
  import opened QueueStore
  import opened QueueMachine
  import opened WitnessRows

  /**
   No requeue; strictly increasing created_at; no claim skips a claimable row because another transaction locks it.
   */
  ghost predicate Disciplined(s: State, a: Action) {
    && !a.Requeue?
    && (a.Create? ==> forall j :: j in s.db.jobs ==> s.db.jobs[j].createdAt < s.now)
    && (a.Claim? ==> forall j :: j in a.locked ==> !Claimable(s.db.jobs, j, s.now))
  }

  ghost predicate DisciplinedBehavior(b: seq<State>, acts: seq<Action>) {
    Behavior(b, acts) && forall i :: 0 <= i < |acts| ==> Disciplined(b[i], acts[i])
  }

  // ----- Invariant: jobs in order of creation are finished, then at most one runs, then the rest wait -----

  ghost predicate StatusAt(s: State, i: nat)
    requires i < |s.created| && s.created[i] in s.db.jobs
  {
    var row := s.db.jobs[s.created[i]];
    if i < |s.finished| then Terminal(row.status)
    else if i < |s.claimed| then row.status == JobRunning && row.expires.Some?
    else row.status == JobQueued
  }

  ghost predicate Known(created: seq<JobId>, jobs: map<JobId, JobRow>) {
    && (forall j :: j in jobs ==> j in created)
    && (forall i :: 0 <= i < |created| ==> created[i] in jobs)
  }

  ghost predicate Ordered(created: seq<JobId>, jobs: map<JobId, JobRow>)
    requires Known(created, jobs)
  {
    forall i, k :: 0 <= i < k < |created| ==> jobs[created[i]].createdAt < jobs[created[k]].createdAt
  }

  ghost predicate Logs(s: State) {
    && |s.finished| <= |s.claimed| <= |s.finished| + 1 && |s.claimed| <= |s.created|
    && s.claimed == s.created[..|s.claimed|] && s.finished == s.created[..|s.finished|]
  }

  ghost predicate Workers(s: State) {
    forall w :: w in s.workers && s.workers[w].Working? ==> s.workers[w].job in s.claimed
  }

  ghost predicate Inv(s: State) {
    && Known(s.created, s.db.jobs) && Ordered(s.created, s.db.jobs) && Logs(s) && Workers(s)
    && (forall i :: 0 <= i < |s.created| ==> StatusAt(s, i))
  }

  /** Rows of jobs are left alone. */
  lemma SameJobsKeepsInv(s: State, s': State)
    requires Inv(s) && s'.db.jobs == s.db.jobs && s'.created == s.created && s'.claimed == s.claimed &&
             s'.finished == s.finished
    requires Workers(s')
    ensures Inv(s')
  {
    forall i | 0 <= i < |s.created| ensures StatusAt(s', i) {
      assert StatusAt(s, i);
    }
  }

  lemma CreateKeepsOrder(created: seq<JobId>, jobs: map<JobId, JobRow>, j: JobId, row: JobRow)
    requires Known(created, jobs) && Ordered(created, jobs) && j !in jobs
    requires forall i :: i in jobs ==> jobs[i].createdAt < row.createdAt
    ensures Known(created + [j], jobs[j := row]) && Ordered(created + [j], jobs[j := row])
  {
  }

  lemma CreateKeepsStatus(s: State, s': State, j: JobId, row: JobRow, i: nat)
    requires Inv(s) && j !in s.db.jobs && row.status == JobQueued && i <= |s.created|
    requires s'.created == s.created + [j] && s'.db.jobs == s.db.jobs[j := row]
    requires s'.claimed == s.claimed && s'.finished == s.finished
    ensures s'.created[i] in s'.db.jobs && StatusAt(s', i)
  {
    if i < |s.created| {
      assert StatusAt(s, i);
    }
  }

  lemma CreateKeepsInv(s: State, a: Action)
    requires Inv(s) && a.Create? && Enabled(s, a) && Disciplined(s, a)
    ensures Inv(Apply(s, a))
  {
    var s' := Apply(s, a);
    CreateKeepsOrder(s.created, s.db.jobs, a.job, a.row);
    forall i | 0 <= i < |s'.created| ensures StatusAt(s', i) {
      CreateKeepsStatus(s, s', a.job, a.row, i);
    }
    assert s'.created[..|s.claimed|] == s.claimed && s'.created[..|s.finished|] == s.finished;
  }

  lemma OrderedDistinct(created: seq<JobId>, jobs: map<JobId, JobRow>, i: nat, k: nat)
    requires Known(created, jobs) && Ordered(created, jobs) && i < |created| && k < |created| && i != k
    ensures created[i] != created[k]
  {
  }

  /** A statement on one job row that keeps its place in the order. */
  lemma RowKeepsInv(s: State, s': State, i: nat, row: JobRow)
    requires Inv(s) && i < |s.created|
    requires s'.db.jobs == s.db.jobs[s.created[i] := row] && row.createdAt == s.db.jobs[s.created[i]].createdAt
    requires s'.created == s.created && Logs(s') && Workers(s')
    requires |s'.claimed| == |s.claimed| || (i == |s.claimed| && |s'.claimed| == i + 1)
    requires |s'.finished| == |s.finished| || (i == |s.finished| && |s'.finished| == i + 1)
    requires StatusAt(s', i)
    ensures Inv(s')
  {
    forall k | 0 <= k < |s'.created| ensures StatusAt(s', k) {
      assert StatusAt(s, k);
      if k != i {
        OrderedDistinct(s.created, s.db.jobs, k, i);
      }
    }
  }

  /** The only claimable row is the running job if its lease is over, else the oldest queued one. */
  lemma ClaimTakesNext(s: State, j: JobId, locked: set<JobId>) returns (i: nat)
    requires Inv(s) && FirstClaimable(s.db.jobs, j, s.now, locked)
    requires forall k :: k in locked ==> !Claimable(s.db.jobs, k, s.now)
    ensures i == |s.finished| < |s.created| && s.created[i] == j
  {
    i :| 0 <= i < |s.created| && s.created[i] == j;
    assert StatusAt(s, i);
    var f := |s.finished|;
    assert StatusAt(s, f);
    if i != f {
      var head := s.created[f];
      assert Claimable(s.db.jobs, head, s.now);
    }
  }

  lemma ClaimKeepsInv(s: State, a: Action)
    requires Inv(s) && a.Claim? && Enabled(s, a) && Disciplined(s, a)
    ensures Inv(Apply(s, a))
  {
    hide Ordered;
    var s' := Apply(s, a);
    var i := ClaimTakesNext(s, a.job, a.locked);
    if i < |s.claimed| {
      assert s.claimed[i] == a.job;
    } else {
      NotIn(s, s.claimed, i);
    }
    RowKeepsInv(s, s', i, ClaimedRow(s.db.jobs[a.job], a.owner, s.now, a.lease));
  }

  lemma NotIn(s: State, log: seq<JobId>, i: nat)
    requires Inv(s) && |log| <= i < |s.created| && log == s.created[..|log|]
    ensures s.created[i] !in log
  {
    forall k | 0 <= k < |log| ensures log[k] != s.created[i] {
      OrderedDistinct(s.created, s.db.jobs, k, i);
    }
  }

  /** Where a finished job stands, and what that does to the log of first finishes. */
  lemma FinishedLog(s: State, j: JobId) returns (i: nat)
    requires Inv(s) && j in s.claimed
    ensures i < |s.claimed| && s.created[i] == j
    ensures j in s.finished <==> i < |s.finished|
    ensures i >= |s.finished| ==> i == |s.finished| && s.finished + [j] == s.created[..i + 1]
  {
    i :| 0 <= i < |s.claimed| && s.claimed[i] == j;
    assert s.created[i] == j;
    if i < |s.finished| {
      assert s.finished[i] == j;
    } else {
      NotIn(s, s.finished, i);
    }
  }

  lemma FinishKeepsInv(s: State, a: Action)
    requires Inv(s) && a.Finish? && Enabled(s, a)
    ensures Inv(Apply(s, a))
  {
    hide Ordered, Sum, FailedIn, DeliveredIn;
    var s' := Apply(s, a);
    var j := WorkerOf(s, a.owner).job;
    var i := FinishedLog(s, j);
    var m := JobSources(s.db, j);
    if m == map[] {
      SameJobsKeepsInv(s, s');
    } else {
      var row := FinishedRow(s.db.jobs[j], Sum(m), |FailedIn(m)|, |DeliveredIn(m)|, s.now);
      assert s'.db.jobs == s.db.jobs[j := row];
      RowKeepsInv(s, s', i, row);
    }
  }

  lemma RenewKeepsInv(s: State, a: Action)
    requires Inv(s) && a.Renew?
    ensures Inv(Apply(s, a))
  {
    if Owns(s.db, a.job, a.owner) {
      var i :| 0 <= i < |s.created| && s.created[i] == a.job;
      assert StatusAt(s, i);
      RowKeepsInv(s, Apply(s, a), i, s.db.jobs[a.job].(expires := Some(Expiry(s.now, a.lease))));
    }
  }

  lemma AckKeepsInv(s: State, a: Action)
    requires Inv(s) && a.Ack?
    ensures Inv(Apply(s, a))
  {
    var s' := Apply(s, a);
    if s'.db == s.db {
      SameJobsKeepsInv(s, s');
    } else {
      var i :| 0 <= i < |s.created| && s.created[i] == a.job;
      assert StatusAt(s, i);
      RowKeepsInv(s, s', i, s.db.jobs[a.job].(acknowledged := true));
    }
  }

  lemma StepKeepsInv(s: State, a: Action)
    requires Inv(s) && Enabled(s, a) && Disciplined(s, a)
    ensures Inv(Apply(s, a))
  {
    match a
    case Create(_, _, _) => CreateKeepsInv(s, a);
    case Claim(_, _, _, _, _) => ClaimKeepsInv(s, a);
    case Renew(_, _, _) => RenewKeepsInv(s, a);
    case Finish(_) => FinishKeepsInv(s, a);
    case Ack(_, _) => AckKeepsInv(s, a);
    case _ => SameJobsKeepsInv(s, Apply(s, a));
  }

  lemma {:induction false} InvAlong(b: seq<State>, acts: seq<Action>, n: nat)
    requires DisciplinedBehavior(b, acts) && n < |b|
    ensures Inv(b[n])
  {
    if n > 0 {
      InvAlong(b, acts, n - 1);
      assert StepAt(b, acts, n - 1) && Disciplined(b[n - 1], acts[n - 1]);
      StepKeepsInv(b[n - 1], acts[n - 1]);
    }
  }

  // ----- The theorem -----

  ghost predicate AtMostOneRunning(s: State) {
    forall i, j ::
      i in s.db.jobs && j in s.db.jobs && s.db.jobs[i].status == JobRunning && s.db.jobs[j].status == JobRunning ==>
        i == j
  }

  ghost predicate RunningBeforeQueued(s: State) {
    forall i, j ::
      i in s.db.jobs && j in s.db.jobs && s.db.jobs[i].status == JobRunning && s.db.jobs[j].status == JobQueued ==>
        s.db.jobs[i].createdAt < s.db.jobs[j].createdAt
  }

  /** Jobs are first claimed and first finished in creation order, each finish before the next first claim. */
  ghost predicate InOrder(s: State) {
    s.claimed <= s.created && s.finished <= s.claimed && |s.claimed| <= |s.finished| + 1
  }

  lemma FifoSingleFlight(b: seq<State>, acts: seq<Action>, n: nat)
    requires DisciplinedBehavior(b, acts) && n < |b|
    ensures AtMostOneRunning(b[n]) && RunningBeforeQueued(b[n]) && InOrder(b[n])
  {
    InvAlong(b, acts, n);
    var s := b[n];
    forall j | j in s.db.jobs && s.db.jobs[j].status == JobRunning
      ensures |s.finished| < |s.claimed| && j == s.created[|s.finished|]
    {
      var i :| 0 <= i < |s.created| && s.created[i] == j;
      assert StatusAt(s, i);
    }
    forall i, j | i in s.db.jobs && j in s.db.jobs
                  && s.db.jobs[i].status == JobRunning && s.db.jobs[j].status == JobQueued
      ensures s.db.jobs[i].createdAt < s.db.jobs[j].createdAt
    {
      var k :| 0 <= k < |s.created| && s.created[k] == j;
      assert StatusAt(s, k);
    }
  }

  // ----- Why a skipped row matters -----

  const R1: JobRow := QueuedJob(0)
  const R2: JobRow := QueuedJob(1)
  const CLAIMED1: JobRow := ClaimedRow(R1, "a", 1, 5)
  const CLAIMED2: JobRow := ClaimedRow(R2, "b", 7, 5)
  const ROWS1: map<SourceId, SourceRow> := map[1 := QueuedSource(1)]
  const ROWS2: map<SourceId, SourceRow> := map[2 := QueuedSource(2)]
  const READ1: seq<Snapshot> := [Snapshot(1, QueuedSource(1))]
  const READ2: seq<Snapshot> := [Snapshot(2, QueuedSource(2))]
  const BUSY: Worker := Working(1, READ1, 0, false)

  /** Two jobs; the lease of the first runs out, and its owner's renewal holds the row while another worker claims. */
  function SkipAction(n: nat): Action {
    if n == 0 then Create(1, R1, ROWS1)
    else if n == 1 then Tick(1)
    else if n == 2 then Create(2, R2, ROWS2)
    else if n == 3 then Claim("a", 1, 5, READ1, {})
    else if n == 4 then Tick(7)
    else if n == 5 then Claim("b", 2, 5, READ2, {1})
    else Renew("a", 1, 5)
  }

  function SkipState(n: nat): State {
    var one := Db(map[1 := R1], ROWS1);
    var two := Db(map[1 := R1, 2 := R2], ROWS1 + ROWS2);
    var running := Db(map[1 := CLAIMED1, 2 := R2], ROWS1 + ROWS2);
    if n == 0 then State(0, Db(map[], map[]), map[], Db(map[], map[]), [], [], [], map[])
    else if n == 1 then State(0, one, map[], one, [1], [], [], map[])
    else if n == 2 then State(1, one, map[], one, [1], [], [], map[])
    else if n == 3 then State(1, two, map[], two, [1, 2], [], [], map[])
    else if n == 4 then State(1, running, map["a" := BUSY], two, [1, 2], [1], [], map[("a", 1) := 6])
    else if n == 5 then State(7, running, map["a" := BUSY], two, [1, 2], [1], [], map[("a", 1) := 6])
    else if n == 6 then
      State(7, running.(jobs := map[1 := CLAIMED1, 2 := CLAIMED2]),
            map["a" := BUSY, "b" := Working(2, READ2, 0, false)],
            two, [1, 2], [1, 2], [], map[("a", 1) := 6, ("b", 2) := 12])
    else
      State(7, running.(jobs := map[1 := CLAIMED1.(expires := Some(12)), 2 := CLAIMED2]),
            map["a" := BUSY, "b" := Working(2, READ2, 0, false)],
            two, [1, 2], [1, 2], [], map[("a", 1) := 12, ("b", 2) := 12])
  }

  ghost predicate SkipStepOk(n: nat) {
    && Enabled(SkipState(n), SkipAction(n)) && Apply(SkipState(n), SkipAction(n)) == SkipState(n + 1)
    && (n != 5 ==> Disciplined(SkipState(n), SkipAction(n)))
  }

  lemma SkipSetUp(n: nat)
    requires n < 3
    ensures SkipStepOk(n)
  {
    assert 1 in ROWS1 && 2 in ROWS2;
  }

  lemma SkipFirstClaim(n: nat)
    requires 3 <= n < 5
    ensures SkipStepOk(n)
  {
    SkipClaims(SkipState(3).db.jobs, SkipState(5).db.jobs);
  }

  lemma SkipRace()
    ensures SkipStepOk(5)
  {
    SkipClaims(SkipState(3).db.jobs, SkipState(5).db.jobs);
  }

  lemma RenewedMaps()
    ensures map[1 := CLAIMED1, 2 := CLAIMED2][1 := CLAIMED1.(expires := Some(12))]
         == map[1 := CLAIMED1.(expires := Some(12)), 2 := CLAIMED2]
    ensures var leases: map<(Owner, JobId), int> := map[("a", 1) := 6, ("b", 2) := 12];
            leases[("a", 1) := 12] == map[("a", 1) := 12, ("b", 2) := 12]
  {
  }

  lemma SkipRenewal()
    ensures SkipStepOk(6)
  {
    RenewedMaps();
  }

  lemma SkipClaims(before: map<JobId, JobRow>, after: map<JobId, JobRow>)
    requires before == map[1 := R1, 2 := R2] && after == map[1 := CLAIMED1, 2 := R2]
    ensures FirstClaimable(before, 1, 1, {}) && FirstClaimable(after, 2, 7, {1})
  {
    assert !AnyLive(before, 1) && !AnyLive(after, 7);
  }

  /** Skipping one locked row is enough for two jobs with unexpired leases at the same time. */
  lemma SkippedRowBreaksSingleFlight() returns (b: seq<State>, acts: seq<Action>)
    ensures Behavior(b, acts)
    ensures forall n :: 0 <= n < |acts| && n != 5 ==> Disciplined(b[n], acts[n])
    ensures var s := b[|b| - 1];
            1 in s.db.jobs && 2 in s.db.jobs && Live(s.db.jobs[1], s.now) && Live(s.db.jobs[2], s.now)
  {
    b := seq(8, n requires 0 <= n => SkipState(n));
    acts := seq(7, n requires 0 <= n => SkipAction(n));
    forall n | 0 <= n < 7
      ensures StepAt(b, acts, n)
      ensures n != 5 ==> Disciplined(b[n], acts[n])
    {
      if n < 3 {
        SkipSetUp(n);
      } else if n < 5 {
        SkipFirstClaim(n);
      } else if n == 5 {
        SkipRace();
      } else {
        SkipRenewal();
      }
      assert SkipStepOk(n);
    }
  }
}
