/**
 The job queue tables and the SQL statements of the store. `Db` is the value of the tables; every statement is a
 function on it, and class Store performs the statements on mutable tables. `now` is the database clock, in any unit of
 time.
 */
module QueueStore {
  import opened Faults
  import opened Options

  type JobId = nat
  type SourceId = nat
  type Owner = string

  datatype JobStatus = JobQueued | JobRunning | JobSucceeded | JobPartial | JobFailed

  datatype SourceStatus = SourceQueued | SourceRunning | SourceSucceeded | SourceFailed | SourceTruncated

  datatype Totals = Totals(collected: nat, imported: nat, duplicates: nat, invalid: nat)

  datatype Trigger = Manual | Scheduled | Bootstrap

  datatype SourceKind = Telegram | Website

  const ZERO: Totals := Totals(0, 0, 0, 0)
  const SOME_SOURCES_FAILED: string := "some sources failed"

  /** A row of collection_job_sources. */
  datatype SourceRow = SourceRow(job: JobId, kind: SourceKind, sourceId: string, url: string,
                                 status: SourceStatus, totals: Totals, message: string)

  /** A row of collection_jobs. */
  datatype JobRow = JobRow(trigger: Trigger, requestedBy: Option<nat>, key: nat, limit: nat, createdAt: int,
                           status: JobStatus, totals: Totals, errors: nat, message: string, acknowledged: bool,
                           owner: Option<Owner>, expires: Option<int>, startedAt: Option<int>, finishedAt: Option<int>)

  datatype Db = Db(jobs: map<JobId, JobRow>, sources: map<SourceId, SourceRow>)

  predicate Terminal(s: JobStatus) {
    s == JobSucceeded || s == JobPartial || s == JobFailed
  }

  /** A source that a later run of its job skips. */
  predicate Delivered(s: SourceStatus) {
    s == SourceSucceeded || s == SourceTruncated
  }

  // ----- Claim -----

  predicate Expired(row: JobRow, now: int) {
    row.status == JobRunning && row.expires.Some? && row.expires.value < now
  }

  predicate Live(row: JobRow, now: int) {
    row.status == JobRunning && row.expires.Some? && row.expires.value >= now
  }

  predicate AnyLive(jobs: map<JobId, JobRow>, now: int) {
    exists j :: j in jobs && Live(jobs[j], now)
  }

  predicate Claimable(jobs: map<JobId, JobRow>, j: JobId, now: int) {
    j in jobs && (Expired(jobs[j], now) || (jobs[j].status == JobQueued && !AnyLive(jobs, now)))
  }

  /** ORDER BY created_at, id */
  predicate Precedes(jobs: map<JobId, JobRow>, a: JobId, b: JobId)
    requires a in jobs && b in jobs
  {
    jobs[a].createdAt < jobs[b].createdAt || (jobs[a].createdAt == jobs[b].createdAt && a <= b)
  }

  /** The row that the claim query returns when the rows in `locked` are skipped. */
  predicate FirstClaimable(jobs: map<JobId, JobRow>, j: JobId, now: int, locked: set<JobId>) {
    && Claimable(jobs, j, now) && j !in locked
    && forall i :: i in jobs && Claimable(jobs, i, now) && i !in locked ==> Precedes(jobs, j, i)
  }

  /** now() + make_interval(secs => lease) */
  function Expiry(now: int, lease: int): int {
    now + lease
  }

  function ClaimedRow(row: JobRow, owner: Owner, now: int, lease: int): JobRow {
    row.(status := JobRunning, owner := Some(owner), expires := Some(Expiry(now, lease)),
         startedAt := if row.startedAt.None? then Some(now) else row.startedAt)
  }

  function ClaimJob(db: Db, j: JobId, owner: Owner, now: int, lease: int): Db {
    if j in db.jobs then db.(jobs := db.jobs[j := ClaimedRow(db.jobs[j], owner, now, lease)]) else db
  }

  // ----- Lease renewal, requeue, acknowledgement -----

  predicate Owns(db: Db, j: JobId, owner: Owner) {
    j in db.jobs && db.jobs[j].status == JobRunning && db.jobs[j].owner == Some(owner)
  }

  function RenewLease(db: Db, j: JobId, owner: Owner, now: int, lease: int): Db {
    if Owns(db, j, owner) then db.(jobs := db.jobs[j := db.jobs[j].(expires := Some(Expiry(now, lease)))]) else db
  }

  function RequeuedSource(row: SourceRow): SourceRow {
    row.(status := SourceQueued, totals := ZERO, message := "")
  }

  function RequeuedRow(row: JobRow): JobRow {
    row.(status := JobQueued, totals := ZERO, errors := 0, message := "",
         owner := None, expires := None, startedAt := None, finishedAt := None)
  }

  /** The failed sources of the job are reset. */
  function RequeuedSources(sources: map<SourceId, SourceRow>, j: JobId): map<SourceId, SourceRow> {
    map i | i in sources ::
      if sources[i].job == j && sources[i].status == SourceFailed then RequeuedSource(sources[i]) else sources[i]
  }

  /** RequeueFailed; rolled back unless the job is failed. */
  function RequeueFailed(db: Db, j: JobId): Db {
    if j in db.jobs && db.jobs[j].status == JobFailed then
      Db(db.jobs[j := RequeuedRow(db.jobs[j])], RequeuedSources(db.sources, j))
    else db
  }

  function AcknowledgedRow(row: JobRow): JobRow {
    row.(acknowledged := true)
  }

  function AcknowledgeJob(db: Db, j: JobId, actor: nat): Db {
    if j in db.jobs && db.jobs[j].requestedBy == Some(actor) && Terminal(db.jobs[j].status) then
      db.(jobs := db.jobs[j := AcknowledgedRow(db.jobs[j])])
    else db
  }

  // ----- Source statements -----

  /** The rows are of the same source of the same job. */
  predicate SameSource(a: SourceRow, b: SourceRow) {
    a.job == b.job && a.kind == b.kind && a.sourceId == b.sourceId && a.url == b.url
  }

  function StartedSource(row: SourceRow): SourceRow {
    row.(status := SourceRunning)
  }

  function StartSource(db: Db, i: SourceId): Db {
    if i in db.sources then db.(sources := db.sources[i := StartedSource(db.sources[i])]) else db
  }

  function SavedSource(row: SourceRow, status: SourceStatus, totals: Totals, message: string): SourceRow {
    row.(status := status, totals := totals, message := message)
  }

  function FinishSource(db: Db, i: SourceId, status: SourceStatus, totals: Totals, message: string): Db {
    if i in db.sources then db.(sources := db.sources[i := SavedSource(db.sources[i], status, totals, message)]) else db
  }

  // ----- Aggregation -----

  function SourcesOf(sources: map<SourceId, SourceRow>, j: JobId): map<SourceId, SourceRow> {
    map i | i in sources && sources[i].job == j :: sources[i]
  }

  function JobSources(db: Db, j: JobId): map<SourceId, SourceRow> {
    SourcesOf(db.sources, j)
  }

  function Plus(a: Totals, b: Totals): Totals {
    Totals(a.collected + b.collected, a.imported + b.imported, a.duplicates + b.duplicates, a.invalid + b.invalid)
  }

  lemma PlusZero(a: Totals)
    ensures Plus(ZERO, a) == a && Plus(a, ZERO) == a
  {
  }

  lemma PlusSwap(a: Totals, b: Totals, c: Totals)
    ensures Plus(a, Plus(b, c)) == Plus(b, Plus(a, c))
    ensures Plus(Plus(a, b), c) == Plus(a, Plus(b, c))
  {
  }

  ghost function Sum(m: map<SourceId, SourceRow>): Totals {
    if m == map[] then ZERO
    else
      var i :| i in m;
      Plus(m[i].totals, Sum(m - {i}))
  }

  /** The sum does not depend on the order in which the rows are read. */
  lemma {:induction false} SumAnyOrder(m: map<SourceId, SourceRow>, i: SourceId)
    requires i in m
    ensures Sum(m) == Plus(m[i].totals, Sum(m - {i}))
    ensures var one, rest := m[i].totals, Sum(m - {i});
            Sum(m) == Totals(one.collected + rest.collected, one.imported + rest.imported,
                             one.duplicates + rest.duplicates, one.invalid + rest.invalid)
  {
    var k :| k in m && Sum(m) == Plus(m[k].totals, Sum(m - {k}));
    if k != i {
      var both := m - {k} - {i};
      SumAnyOrder(m - {k}, i);
      assert Sum(m - {k}) == Plus(m[i].totals, Sum(both));
      SumAnyOrder(m - {i}, k);
      assert m - {i} - {k} == both;
      assert Sum(m - {i}) == Plus(m[k].totals, Sum(both));
      PlusSwap(m[k].totals, m[i].totals, Sum(both));
    }
  }

  function FailedIn(m: map<SourceId, SourceRow>): set<SourceId> {
    set i | i in m && m[i].status == SourceFailed
  }

  function DeliveredIn(m: map<SourceId, SourceRow>): set<SourceId> {
    set i | i in m && Delivered(m[i].status)
  }

  function FinalStatus(errors: nat, successes: nat): JobStatus {
    if errors == 0 then JobSucceeded else if successes == 0 then JobFailed else JobPartial
  }

  function FinishedRow(row: JobRow, totals: Totals, errors: nat, successes: nat, now: int): JobRow {
    row.(totals := totals, errors := errors, status := FinalStatus(errors, successes),
         message := if errors > 0 then SOME_SOURCES_FAILED else "",
         owner := None, expires := None, finishedAt := Some(now))
  }

  /** The job row once FinishJob has aggregated the sources m. */
  ghost function AggregatedRow(row: JobRow, m: map<SourceId, SourceRow>, now: int): JobRow {
    FinishedRow(row, Sum(m), |FailedIn(m)|, |DeliveredIn(m)|, now)
  }

  /** FinishJob; a job without sources has no group to aggregate and is left alone. */
  ghost function FinishJob(db: Db, j: JobId, now: int): Db {
    var m := JobSources(db, j);
    if j in db.jobs && m != map[] then
      db.(jobs := db.jobs[j := AggregatedRow(db.jobs[j], m, now)])
    else db
  }

  lemma RemoveOne(m: map<SourceId, SourceRow>, i: SourceId)
    requires i in m
    ensures |FailedIn(m - {i})| == |FailedIn(m)| - if m[i].status == SourceFailed then 1 else 0
    ensures |DeliveredIn(m - {i})| == |DeliveredIn(m)| - if Delivered(m[i].status) then 1 else 0
  {
    FailedWithout(m, i);
    DeliveredWithout(m, i);
  }

  lemma FailedWithout(m: map<SourceId, SourceRow>, i: SourceId)
    requires i in m
    ensures |FailedIn(m - {i})| == |FailedIn(m)| - if m[i].status == SourceFailed then 1 else 0
  {
    assert FailedIn(m - {i}) == FailedIn(m) - {i};
  }

  lemma DeliveredWithout(m: map<SourceId, SourceRow>, i: SourceId)
    requires i in m
    ensures |DeliveredIn(m - {i})| == |DeliveredIn(m)| - if Delivered(m[i].status) then 1 else 0
  {
    assert DeliveredIn(m - {i}) == DeliveredIn(m) - {i};
  }

  /** The accumulators hold what the rows of m outside `rest` contribute. */
  ghost predicate Accumulated(m: map<SourceId, SourceRow>, rest: map<SourceId, SourceRow>,
                              totals: Totals, errors: nat, successes: nat)
  {
    && Sum(m) == Plus(totals, Sum(rest))
    && |FailedIn(m)| == errors + |FailedIn(rest)|
    && |DeliveredIn(m)| == successes + |DeliveredIn(rest)|
  }

  lemma AccumulatedNothing(m: map<SourceId, SourceRow>)
    ensures Accumulated(m, m, ZERO, 0, 0)
  {
    PlusZero(Sum(m));
  }

  lemma AccumulatedOne(m: map<SourceId, SourceRow>, rest: map<SourceId, SourceRow>, i: SourceId,
                       totals: Totals, errors: nat, successes: nat)
    requires i in rest && Accumulated(m, rest, totals, errors, successes)
    ensures Accumulated(m, rest - {i}, Plus(totals, rest[i].totals),
                        errors + (if rest[i].status == SourceFailed then 1 else 0),
                        successes + (if Delivered(rest[i].status) then 1 else 0))
  {
    SumAnyOrder(rest, i);
    RemoveOne(rest, i);
    PlusSwap(totals, rest[i].totals, Sum(rest - {i}));
  }

  lemma EmptySets(none: map<SourceId, SourceRow>)
    requires none == map[]
    ensures |FailedIn(none)| == 0 && |DeliveredIn(none)| == 0
  {
    assert FailedIn(none) == {};
    assert DeliveredIn(none) == {};
  }

  lemma EmptySum(none: map<SourceId, SourceRow>)
    requires none == map[]
    ensures Sum(none) == ZERO
  {
  }

  lemma OneSum(m: map<SourceId, SourceRow>, i: SourceId)
    requires m.Keys == {i} && m[i].totals == ZERO
    ensures Sum(m) == ZERO
  {
    SumAnyOrder(m, i);
    assert m - {i} == map[];
    EmptySum(m - {i});
  }

  lemma OneFailed(m: map<SourceId, SourceRow>, i: SourceId)
    requires m.Keys == {i} && m[i].status == SourceFailed
    ensures |FailedIn(m)| == 1 && |DeliveredIn(m)| == 0
  {
    assert FailedIn(m) == {i} && DeliveredIn(m) == {};
  }

  lemma OneDelivered(m: map<SourceId, SourceRow>, i: SourceId)
    requires m.Keys == {i} && Delivered(m[i].status)
    ensures |FailedIn(m)| == 0 && |DeliveredIn(m)| == 1
  {
    assert FailedIn(m) == {} && DeliveredIn(m) == {i};
  }

  lemma AccumulatedAll(m: map<SourceId, SourceRow>, rest: map<SourceId, SourceRow>, totals: Totals, errors: nat,
                       successes: nat)
    requires Accumulated(m, rest, totals, errors, successes) && rest == map[]
    ensures totals == Sum(m)
    ensures errors == |FailedIn(m)| && successes == |DeliveredIn(m)|
  {
    EmptySets(rest);
    EmptySum(rest);
    PlusZero(totals);
  }

  /** The aggregate query of FinishJob as one pass over the rows. */
  method Aggregate(m: map<SourceId, SourceRow>) returns (totals: Totals, errors: nat, successes: nat)
    ensures totals == Sum(m) && errors == |FailedIn(m)| && successes == |DeliveredIn(m)|
  {
    var rest := m;
    totals, errors, successes := ZERO, 0, 0;
    AccumulatedNothing(m);
    while rest != map[]
      invariant Accumulated(m, rest, totals, errors, successes)
      decreases rest.Keys
    {
      var i :| i in rest;
      AccumulatedOne(m, rest, i, totals, errors, successes);
      totals := Plus(totals, rest[i].totals);
      if rest[i].status == SourceFailed {
        errors := errors + 1;
      }
      if Delivered(rest[i].status) {
        successes := successes + 1;
      }
      rest := rest - {i};
    }
    AccumulatedAll(m, rest, totals, errors, successes);
  }

  // ----- The store -----

  /**
   Store: the tables, updated in place by one statement or transaction at a time, and the outcomes of those, in the
   order in which they are issued.
   */
  class Store {
    const outcomes: nat -> Outcome
    var jobs: map<JobId, JobRow>
    var sources: map<SourceId, SourceRow>
    var calls: nat

    constructor (outcomes: nat -> Outcome)
      ensures Tables() == Db(map[], map[]) && calls == 0 && this.outcomes == outcomes
    {
      jobs, sources, calls := map[], map[], 0;
      this.outcomes := outcomes;
    }

    function Tables(): Db
      reads this
    {
      Db(jobs, sources)
    }

    /** The next statement. */
    method Issue() returns (outcome: Outcome)
      modifies this`calls
      ensures outcome == outcomes(old(calls)) && calls == old(calls) + 1
    {
      outcome := outcomes(calls);
      calls := calls + 1;
    }

    /**
     Claim: the transaction, and the read of the claimed job after it. `advisory` tells whether the advisory lock was
     free, `locked` which rows other transactions hold; those are skipped. When the commit goes unreported, or the job
     cannot be read after it, `ok` is false and the job stays claimed although the caller gets none.
     */
    method Claim(owner: Owner, lease: int, now: int, advisory: bool, locked: set<JobId>)
      returns (ok: bool, claimed: Option<JobId>)
      modifies this
      ensures claimed.None? <==> outcomes(old(calls)) == Refused || !advisory ||
                                 forall j :: j in old(jobs) && Claimable(old(jobs), j, now) ==> j in locked
      ensures claimed.None? ==> Tables() == old(Tables()) && calls == old(calls) + 1
      ensures claimed.Some? ==> FirstClaimable(old(jobs), claimed.value, now, locked)
      ensures claimed.Some? ==> Tables() == ClaimJob(old(Tables()), claimed.value, owner, now, lease)
      ensures claimed.Some? ==> calls == old(calls) + if outcomes(old(calls)) == Served then 2 else 1
      ensures ok <==> AllServed(outcomes, old(calls), calls)
    {
      claimed := None;
      var outcome := Issue();
      ok := outcome == Served;
      if outcome == Refused || !advisory {
        return;
      }
      var rest := set j | j in jobs && Claimable(jobs, j, now) && j !in locked;
      ghost var all := rest;
      while rest != {}
        invariant rest <= all
        invariant claimed.None? ==> rest == all
        invariant claimed.Some? ==> claimed.value in all
        invariant claimed.Some? ==> forall i :: i in all - rest ==> Precedes(jobs, claimed.value, i)
        decreases rest
      {
        var j :| j in rest;
        assert all - (rest - {j}) == all - rest + {j};
        rest := rest - {j};
        if claimed.None? || !Precedes(jobs, claimed.value, j) {
          claimed := Some(j);
        }
      }
      assert forall j :: j in jobs && Claimable(jobs, j, now) && j !in locked ==> j in all;
      if claimed.Some? {
        jobs := jobs[claimed.value := ClaimedRow(jobs[claimed.value], owner, now, lease)];
        if ok {
          outcome := Issue();
          ok := outcome == Served;
        }
      }
    }

    /** RenewLease: fails unless the caller still owns the running job. */
    method Renew(j: JobId, owner: Owner, lease: int, now: int) returns (ok: bool)
      modifies this
      ensures calls == old(calls) + 1
      ensures ok <==> Owns(old(Tables()), j, owner) && outcomes(old(calls)) == Served
      ensures Tables() == if outcomes(old(calls)) == Refused then old(Tables())
                          else RenewLease(old(Tables()), j, owner, now, lease)
      ensures ok ==>
                jobs[j].status == JobRunning && jobs[j].owner == Some(owner) && jobs[j].expires == Some(now + lease)
    {
      var outcome := Issue();
      var owned := Owns(Tables(), j, owner);
      if owned && outcome != Refused {
        jobs := jobs[j := jobs[j].(expires := Some(Expiry(now, lease)))];
      }
      ok := owned && outcome == Served;
    }

    /** RequeueFailed: the sources are reset first; the transaction rolls back unless the job is failed. */
    method Requeue(j: JobId) returns (ok: bool)
      modifies this
      ensures calls == old(calls) + 1
      ensures ok <==> j in old(jobs) && old(jobs)[j].status == JobFailed && outcomes(old(calls)) == Served
      ensures Tables() == if outcomes(old(calls)) == Refused then old(Tables()) else RequeueFailed(old(Tables()), j)
    {
      var outcome := Issue();
      var before := sources;
      sources := RequeuedSources(sources, j);
      var failed := j in jobs && jobs[j].status == JobFailed;
      if failed && outcome != Refused {
        jobs := jobs[j := RequeuedRow(jobs[j])];
      } else {
        sources := before;
      }
      ok := failed && outcome == Served;
    }

    /** Acknowledge: only whoever asked for a job may, and only once it is terminal. */
    method Acknowledge(j: JobId, actor: nat) returns (ok: bool)
      modifies this
      ensures calls == old(calls) + 1
      ensures ok <==>
              && j in old(jobs) && old(jobs)[j].requestedBy == Some(actor)
              && old(jobs)[j].status in {JobSucceeded, JobPartial, JobFailed} && outcomes(old(calls)) == Served
      ensures ok ==> jobs == old(jobs)[j := old(jobs)[j].(acknowledged := true)]
      ensures Tables() == if outcomes(old(calls)) == Refused then old(Tables())
                          else AcknowledgeJob(old(Tables()), j, actor)
    {
      var outcome := Issue();
      var allowed := j in jobs && jobs[j].requestedBy == Some(actor) && Terminal(jobs[j].status);
      if allowed && outcome != Refused {
        jobs := jobs[j := AcknowledgedRow(jobs[j])];
      }
      ok := allowed && outcome == Served;
    }

    /** StartSource. Nobody asks who calls; nothing but the status of the one source changes. */
    method Start(i: SourceId) returns (ok: bool)
      modifies this
      ensures calls == old(calls) + 1 && ok == (outcomes(old(calls)) == Served)
      ensures Tables() == if outcomes(old(calls)) == Refused then old(Tables()) else StartSource(old(Tables()), i)
      ensures jobs == old(jobs) && sources.Keys == old(sources).Keys
      ensures forall k :: k in sources && k != i ==> sources[k] == old(sources)[k]
      ensures i in sources && outcomes(old(calls)) != Refused ==> sources[i].status == SourceRunning
      ensures i in sources ==> SameSource(sources[i], old(sources)[i])
      ensures i in sources ==>
              sources[i].totals == old(sources)[i].totals && sources[i].message == old(sources)[i].message
    {
      var outcome := Issue();
      if i in sources && outcome != Refused {
        sources := sources[i := StartedSource(sources[i])];
      }
      ok := outcome == Served;
    }

    /** FinishSource. Nobody asks who calls; what identifies the source, the job row and all other sources stay. */
    method SaveResult(i: SourceId, status: SourceStatus, totals: Totals, message: string) returns (ok: bool)
      modifies this
      ensures calls == old(calls) + 1 && ok == (outcomes(old(calls)) == Served)
      ensures Tables() == if outcomes(old(calls)) == Refused then old(Tables())
                          else FinishSource(old(Tables()), i, status, totals, message)
      ensures jobs == old(jobs) && sources.Keys == old(sources).Keys
      ensures forall k :: k in sources && k != i ==> sources[k] == old(sources)[k]
      ensures i in sources ==> SameSource(sources[i], old(sources)[i])
      ensures i in sources && outcomes(old(calls)) != Refused ==>
              sources[i].status == status && sources[i].totals == totals && sources[i].message == message
    {
      var outcome := Issue();
      if i in sources && outcome != Refused {
        sources := sources[i := SavedSource(sources[i], status, totals, message)];
      }
      ok := outcome == Served;
    }

    /** FinishJob: one pass over the rows of the job. */
    method Finish(j: JobId, now: int) returns (ok: bool)
      modifies this
      ensures calls == old(calls) + 1 && ok == (outcomes(old(calls)) == Served)
      ensures Tables() == if outcomes(old(calls)) == Refused then old(Tables()) else FinishJob(old(Tables()), j, now)
    {
      var outcome := Issue();
      ok := outcome == Served;
      var m := JobSources(Tables(), j);
      if outcome == Refused || j !in jobs || m == map[] {
        return;
      }
      var totals, errors, successes := Aggregate(m);
      jobs := jobs[j := FinishedRow(jobs[j], totals, errors, successes, now)];
    }
  }

  /**
   The columns that FinishJob writes: totals and errors of the sources, and a status and a message that say who failed.
   */
  lemma FinishedColumns(db: Db, j: JobId, now: int)
    requires j in db.jobs && exists i :: i in db.sources && db.sources[i].job == j
    ensures var before, after := db.jobs[j], FinishJob(db, j, now).jobs[j];
            var mine := set i | i in db.sources && db.sources[i].job == j;
            var failed := set i | i in mine && db.sources[i].status == SourceFailed;
            var delivered := set i | i in mine && db.sources[i].status in {SourceSucceeded, SourceTruncated};
            && after.totals == Sum(JobSources(db, j)) && after.errors == |failed|
            && (after.status == JobSucceeded <==> failed == {})
            && (after.status == JobFailed <==> failed != {} && delivered == {})
            && (after.status == JobPartial <==> failed != {} && delivered != {})
            && (after.message == "" <==> failed == {})
            && after.owner == None && after.expires == None && after.finishedAt == Some(now)
            && after.(totals := before.totals, errors := before.errors, status := before.status,
                      message := before.message, owner := before.owner, expires := before.expires,
                      finishedAt := before.finishedAt) == before
  {
    var m := JobSources(db, j);
    var i :| i in db.sources && db.sources[i].job == j;
    assert i in m;
    var mine := set i | i in db.sources && db.sources[i].job == j;
    assert FailedIn(m) == set i | i in mine && db.sources[i].status == SourceFailed;
    assert DeliveredIn(m) == set i | i in mine && db.sources[i].status in {SourceSucceeded, SourceTruncated};
    EmptyOrNot(FailedIn(m));
    EmptyOrNot(DeliveredIn(m));
  }

  lemma EmptyOrNot(s: set<SourceId>)
    ensures s == {} <==> |s| == 0
  {
  }
}
