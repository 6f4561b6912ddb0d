/**
 runNext as the worker runs it, statement by statement on the store, when nobody else interferes: the job it claims ends
 settled, every source it works on bears a result of processSource, and nothing but that job and its unfinished sources
 changes.
 */
module WorkerLoop {
  import opened Faults
  import opened Instants
  import opened Options
  import opened QueueStore
  import opened QueueMachine
  import opened CrashRecovery
  import Reader = TelegramReader
  import Import = BatchImport
  import Points = Checkpoints
  import Run = SourceRun

  // ----- Reading the sources -----

  lemma OneMoreId(todo: seq<Snapshot>, x: Snapshot)
    requires OncePerSource(todo) && x.id !in Ids(todo)
    ensures OncePerSource(todo + [x]) && Ids(todo + [x]) == Ids(todo) + {x.id}
  {
    assert (todo + [x])[..|todo + [x]| - 1] == todo;
    forall k | 0 <= k < |todo| ensures todo[k].id != x.id {
      IdsContain(todo, k);
    }
  }

  ghost predicate ById(todo: seq<Snapshot>) {
    forall k, l :: 0 <= k < l < |todo| ==> todo[k].id < todo[l].id
  }

  lemma {:induction false} LeastExists(s: set<SourceId>) returns (i: SourceId)
    requires s != {}
    ensures i in s && forall k :: k in s ==> i <= k
  {
    i :| i in s;
    assert forall k :: k in s ==> k == i || k in s - {i};
    if s - {i} != {} {
      var least := LeastExists(s - {i});
      if least < i {
        i := least;
      }
    }
  }

  /** todo lists the rows of m that are not in rest, and those come before the ones in rest. */
  ghost predicate Partly(todo: seq<Snapshot>, rest: set<SourceId>, m: Sources) {
    && rest <= m.Keys && Ids(todo) == m.Keys - rest && OncePerSource(todo) && ById(todo)
    && (forall k :: 0 <= k < |todo| ==> todo[k].id in m && m[todo[k].id] == todo[k].row)
    && (forall k, i :: 0 <= k < |todo| && i in rest ==> todo[k].id < i)
  }

  lemma ListedNext(todo: seq<Snapshot>, rest: set<SourceId>, m: Sources, i: SourceId)
    requires Partly(todo, rest, m) && i in rest && forall k :: k in rest ==> i <= k
    ensures Partly(todo + [Snapshot(i, m[i])], rest - {i}, m)
  {
    hide Ids;
    OneMoreId(todo, Snapshot(i, m[i]));
  }

  lemma ListedAll(todo: seq<Snapshot>, m: Sources)
    requires Partly(todo, {}, m)
    ensures Lists(todo, m) && ById(todo)
  {
  }

  lemma ListedNone(m: Sources)
    ensures Partly([], m.Keys, m)
  {
  }

  /**
   listSources. The sources of a job are inserted by one transaction and share their creation time, so that the order is
   that of their IDs.
   */
  method ListSources(m: Sources) returns (todo: seq<Snapshot>)
    ensures Lists(todo, m) && ById(todo)
  {
    hide Partly, Lists, ById;
    todo := [];
    var rest := m.Keys;
    ListedNone(m);
    while rest != {}
      invariant rest <= m.Keys && Partly(todo, rest, m)
      decreases rest
    {
      ghost var least := LeastExists(rest);
      var i :| i in rest && forall k :: k in rest ==> i <= k;
      ListedNext(todo, rest, m, i);
      rest := rest - {i};
      todo := todo + [Snapshot(i, m[i])];
    }
    ListedAll(todo, m);
  }

  // ----- One source -----

  /**
   What a worker needs besides the store: the channels, their checkpoints, and parameters for the rest of the world.
   */
  datatype World = World(channels: map<string, Reader.Channel>, tables: map<string, Run.CheckpointTable>,
                         replies: (SourceId, nat) -> Import.Reply, normalizes: Reader.Entry -> bool,
                         web: Run.Web, describe: Run.Problem -> string)

  /** Valid histories, and for each name a channel and a checkpoint row of its own. */
  ghost predicate ValidChannels(world: World)
    reads world.channels.Values
  {
    && (forall name :: name in world.channels ==> Reader.ValidHistory(world.channels[name].history))
    && (forall a, b :: a in world.channels && b in world.channels && a != b ==> world.channels[a] != world.channels[b])
    && (forall a, b :: a in world.tables && b in world.tables && a != b ==> world.tables[a] != world.tables[b])
  }

  type Views = map<string, Run.View>

  /** All channels and their checkpoints at this instant. */
  ghost function ViewsOf(world: World): Views
    reads world.channels.Values, world.tables.Values
  {
    map name | name in world.channels && name in world.tables :: ViewOf(world.tables[name], world.channels[name])
  }

  ghost function ViewOf(table: Run.CheckpointTable, channel: Reader.Channel): Run.View
    reads table, channel
  {
    Run.View(table.row, channel.history, table.calls, channel.requests)
  }

  /** No other channel is asked, and no other checkpoint is read or written. */
  ghost predicate OnlyChannelOf(row: SourceRow, was: Views, becomes: Views) {
    was.Keys == becomes.Keys &&
    forall name :: name in was && !(row.kind == Telegram && name == row.sourceId) ==> becomes[name] == was[name]
  }

  /** Every channel among the sources is known. */
  predicate Known(world: World, row: SourceRow) {
    row.kind == Telegram ==> row.sourceId in world.channels && row.sourceId in world.tables
  }

  /** What source i depends on: for a Telegram source also what goes wrong with its checkpoint and its channel. */
  ghost function OutsideOf(world: World, i: SourceId, row: SourceRow): Run.Outside {
    Run.Outside((k: nat) => world.replies(i, k), world.normalizes, world.web, world.describe,
                if row.kind == Telegram && row.sourceId in world.tables then world.tables[row.sourceId].outcomes
                else (c: nat) => Served,
                if row.kind == Telegram && row.sourceId in world.channels then world.channels[row.sourceId].fails
                else (r: nat) => false)
  }

  const NOTHING: Run.View := Run.View(Points.NoCheckpoint, [], 0, 0)

  /** After source i, whose row was `before`, was processed in this world between these views. */
  ghost predicate ResultIn(world: World, job: Run.Job, i: SourceId, before: SourceRow, after: SourceRow, was: Views,
                           becomes: Views)
  {
    var o := OutsideOf(world, i, before);
    match before.kind
    case Telegram =>
      && before.sourceId in was && before.sourceId in becomes
      && was[before.sourceId].history <= becomes[before.sourceId].history
      && Run.ResultOf(job, before, after, o, was[before.sourceId], becomes[before.sourceId])
    case Website => Run.ResultOf(job, before, after, o, NOTHING, NOTHING)
  }

  /** processSource on a Telegram source with a fresh count of the batches. */
  method ProcessChannel(world: World, job: Run.Job, i: SourceId, row: SourceRow) returns (result: SourceRow)
    requires row.kind == Telegram && Known(world, row) && ValidChannels(world)
    modifies world.channels.Values, world.tables.Values
    ensures ValidChannels(world)
    ensures OnlyChannelOf(row, old(ViewsOf(world)), ViewsOf(world))
    ensures ResultIn(world, job, i, row, result, old(ViewsOf(world)), ViewsOf(world))
  {
    hide Run.EarlyResult, Run.Collected, Run.SentResult, Run.ResultOf, Reader.ValidHistory;
    var channel, table := world.channels[row.sourceId], world.tables[row.sourceId];
    ghost var o, was := OutsideOf(world, i, row), ViewOf(table, channel);
    var sink := new Import.Sink((k: nat) => world.replies(i, k));
    assert sink.replies == o.replies;
    var problem;
    ghost var candidates, t;
    result, problem, candidates, t :=
      Run.ProcessSource(job, row, table, channel, sink, world.normalizes, world.web, world.describe);
    Run.ProcessedIsResult(job, row, result, problem, candidates, o, was, ViewOf(table, channel));
  }

  /** processSource on a website. */
  method ProcessPage(world: World, job: Run.Job, i: SourceId, row: SourceRow) returns (result: SourceRow)
    requires row.kind == Website
    ensures Run.ResultOf(job, row, result, OutsideOf(world, i, row), NOTHING, NOTHING)
  {
    hide Run.Accepted, Run.SucceededRow, Run.ResultOf, Import.CountFrom, Run.FailedRow;
    EmptyHistory();
    ghost var o := OutsideOf(world, i, row);
    var channel := new Reader.Channel([], (r: nat) => false);
    var table := new Run.CheckpointTable((c: nat) => Served);
    var sink := new Import.Sink((k: nat) => world.replies(i, k));
    assert sink.replies == o.replies && table.outcomes == o.outcomes && channel.fails == o.fails;
    var problem;
    ghost var candidates, t;
    result, problem, candidates, t :=
      Run.ProcessSource(job, row, table, channel, sink, world.normalizes, world.web, world.describe);
    Run.PageResult(job, row, result, problem, candidates, o, NOTHING, ViewOf(table, channel));
  }

  /** processSource */
  method ProcessSource(world: World, job: Run.Job, i: SourceId, row: SourceRow) returns (result: SourceRow)
    requires Known(world, row) && ValidChannels(world)
    modifies world.channels.Values, world.tables.Values
    ensures ValidChannels(world)
    ensures OnlyChannelOf(row, old(ViewsOf(world)), ViewsOf(world))
    ensures ResultIn(world, job, i, row, result, old(ViewsOf(world)), ViewsOf(world))
  {
    hide Run.ResultOf, Reader.ValidHistory;
    if row.kind == Telegram {
      result := ProcessChannel(world, job, i, row);
    } else {
      result := ProcessPage(world, job, i, row);
    }
  }

  lemma EmptyHistory()
    ensures Reader.ValidHistory([])
  {
  }

  // ----- The loop over the sources -----

  /** Sources of other jobs and delivered sources are as they were. */
  ghost predicate OthersKept(before: Sources, after: Sources, j: JobId) {
    before.Keys == after.Keys &&
    forall i :: i in before ==>
      after[i].job == before[i].job && (before[i].job != j || Delivered(before[i].status) ==> after[i] == before[i])
  }

  /** A source that was not delivered before bears a result of processSource, in this world, on the row as it was. */
  ghost predicate Handled(world: World, job: Run.Job, i: SourceId, before: SourceRow, after: SourceRow, was: Views,
                          becomes: Views)
  {
    if Delivered(before.status) then after == before else ResultIn(world, job, i, before, after, was, becomes)
  }

  /** The worker at position `next` of its list, between two sources. */
  function At(j: JobId, todo: seq<Snapshot>, next: nat): Worker {
    Working(j, todo, next, false)
  }

  lemma CurrentRow(j: JobId, todo: seq<Snapshot>, k: nat, jobs: Jobs, sources: Sources)
    requires k < |todo| && OnTrack(At(j, todo, k), jobs, SourcesOf(sources, j))
    ensures todo[k].id in sources && sources[todo[k].id] == todo[k].row && todo[k].row.job == j
  {
    assert RowAt(At(j, todo, k), k, SourcesOf(sources, j)[todo[k].id]);
  }

  lemma ProcessedOnTrack(j: JobId, todo: seq<Snapshot>, k: nat, jobs: Jobs, sources: Sources, row: SourceRow)
    requires k < |todo| && OnTrack(At(j, todo, k), jobs, SourcesOf(sources, j))
    requires row.job == j && SourceOutcome(row.status)
    ensures todo[k].id in sources && OnTrack(At(j, todo, k + 1), jobs, SourcesOf(sources[todo[k].id := row], j))
  {
    CurrentRow(j, todo, k, jobs, sources);
    NextOnTrack(At(j, todo, k), At(j, todo, k + 1), jobs, SourcesOf(sources, j), row);
    SourcesOfUpdate(sources, todo[k].id, row);
  }

  lemma OthersKeptOn(before: Sources, sources: Sources, j: JobId, i: SourceId, row: SourceRow)
    requires OthersKept(before, sources, j) && i in sources && sources[i].job == j && row.job == j
    requires !Delivered(before[i].status)
    ensures OthersKept(before, sources[i := row], j)
  {
  }

  lemma ResultHasOutcome(world: World, job: Run.Job, i: SourceId, row: SourceRow, result: SourceRow, was: Views,
                         becomes: Views)
    requires ResultIn(world, job, i, row, result, was, becomes)
    ensures SourceOutcome(result.status) && SameSource(result, row)
  {
    hide Run.ResultOf;
    if row.kind == Telegram {
      Run.ResultMeaning(job, row, result, OutsideOf(world, i, row), was[row.sourceId], becomes[row.sourceId]);
    } else {
      Run.ResultMeaning(job, row, result, OutsideOf(world, i, row), NOTHING, NOTHING);
    }
  }

  lemma StoredResult(row: SourceRow, result: SourceRow)
    requires SameSource(result, row)
    ensures SavedSource(StartedSource(row), result.status, result.totals, result.message) == result
  {
  }

  ghost predicate ChannelKept(row: SourceRow, was: Views, becomes: Views) {
    row.kind == Telegram && row.sourceId in was && row.sourceId in becomes ==>
      becomes[row.sourceId] == was[row.sourceId]
  }

  /**
   Source i after its two statements, the first of which was statement `first`. After a failing one nothing more
   happens: the row is as it was or merely started, unless FinishSource was carried out without an answer.
   */
  ghost predicate Attempted(world: World, job: Run.Job, i: SourceId, before: SourceRow, after: SourceRow, was: Views,
                            becomes: Views, outcomes: nat -> Outcome, first: nat, next: nat)
  {
    if outcomes(first) != Served then
      && next == first + 1 && ChannelKept(before, was, becomes)
      && after == if outcomes(first) == Refused then before else StartedSource(before)
    else
      && next == first + 2
      && if outcomes(first + 1) == Refused then after == StartedSource(before)
         else ResultIn(world, job, i, before, after, was, becomes)
  }

  lemma AttemptServed(world: World, job: Run.Job, i: SourceId, before: SourceRow, after: SourceRow, was: Views,
                      becomes: Views, outcomes: nat -> Outcome, first: nat, next: nat)
    requires Attempted(world, job, i, before, after, was, becomes, outcomes, first, next)
    requires AllServed(outcomes, first, next)
    ensures ResultIn(world, job, i, before, after, was, becomes)
  {
    hide ResultIn;
    assert outcomes(first) == Served;
    assert outcomes(first + 1) == Served;
  }

  /** StartSource, processSource, FinishSource; it stops at a failing statement, and `ok` is false then. */
  method ProcessOne(store: Store, world: World, job: Run.Job, j: JobId, i: SourceId, row: SourceRow) returns (ok: bool)
    requires i in store.sources && store.sources[i] == row && row.job == j
    requires Known(world, row) && ValidChannels(world)
    modifies store, world.channels.Values, world.tables.Values
    ensures ValidChannels(world)
    ensures store.jobs == old(store.jobs)
    ensures i in store.sources && store.sources[i].job == j &&
            store.sources == old(store.sources)[i := store.sources[i]]
    ensures OnlyChannelOf(row, old(ViewsOf(world)), ViewsOf(world))
    ensures Attempted(world, job, i, row, store.sources[i], old(ViewsOf(world)), ViewsOf(world), store.outcomes,
                      old(store.calls), store.calls)
    ensures store.calls > old(store.calls) && (ok <==> AllServed(store.outcomes, old(store.calls), store.calls))
  {
    hide ResultIn, ValidChannels, StartedSource, SavedSource, ViewsOf, OnlyChannelOf, Known, Attempted, AllServed,
        SameSource;
    ghost var was, first := ViewsOf(world), store.calls;
    NothingChanged(was, row);
    ok := store.Start(i);
    ghost var started := store.sources[i];
    assert store.Tables() == Db(store.jobs, store.sources);
    if !ok {
      NotStarted(world, job, i, row, started, was, store.outcomes, first);
      return;
    }
    var result := ProcessSource(world, job, i, row);
    ok := store.SaveResult(i, result.status, result.totals, result.message);
    assert store.Tables() == Db(store.jobs, store.sources);
    StartedAndProcessed(world, job, i, row, result, store.sources[i], was, ViewsOf(world), store.outcomes, first);
  }

  lemma NotStarted(world: World, job: Run.Job, i: SourceId, before: SourceRow, after: SourceRow, was: Views,
                   outcomes: nat -> Outcome, first: nat)
    requires outcomes(first) != Served
    requires after == if outcomes(first) == Refused then before else StartedSource(before)
    ensures after.job == before.job && !AllServed(outcomes, first, first + 1)
    ensures Attempted(world, job, i, before, after, was, was, outcomes, first, first + 1)
  {
    ServedOne(outcomes, first);
  }

  lemma StartedAndProcessed(world: World, job: Run.Job, i: SourceId, before: SourceRow, result: SourceRow,
                            after: SourceRow, was: Views, becomes: Views, outcomes: nat -> Outcome, first: nat)
    requires outcomes(first) == Served && ResultIn(world, job, i, before, result, was, becomes)
    requires after == if outcomes(first + 1) == Refused then StartedSource(before)
                      else SavedSource(StartedSource(before), result.status, result.totals, result.message)
    ensures after.job == before.job
    ensures AllServed(outcomes, first, first + 2) <==> outcomes(first + 1) == Served
    ensures Attempted(world, job, i, before, after, was, becomes, outcomes, first, first + 2)
  {
    hide ResultIn;
    ResultHasOutcome(world, job, i, before, result, was, becomes);
    StoredResult(before, result);
  }

  lemma NothingChanged(was: Views, row: SourceRow)
    ensures OnlyChannelOf(row, was, was)
  {
  }

  /** A job names a channel once: part of the unique key of its sources. */
  ghost predicate ChannelsOnce(todo: seq<Snapshot>) {
    forall m, n :: 0 <= m < n < |todo| && todo[m].row.kind == Telegram && todo[n].row.kind == Telegram ==>
      todo[m].row.sourceId != todo[n].row.sourceId
  }

  /** From position k on no channel of the list has been asked. */
  ghost predicate Untouched(todo: seq<Snapshot>, k: nat, was: Views, becomes: Views) {
    was.Keys == becomes.Keys &&
    forall n :: k <= n < |todo| && todo[n].row.kind == Telegram && todo[n].row.sourceId in was ==>
      becomes[todo[n].row.sourceId] == was[todo[n].row.sourceId]
  }

  /** The sources up to position k are handled. */
  ghost predicate HandledUpTo(world: World, job: Run.Job, todo: seq<Snapshot>, k: nat, sources: Sources, was: Views,
                              becomes: Views)
  {
    forall n :: 0 <= n < k <= |todo| ==>
      todo[n].id in sources && Handled(world, job, todo[n].id, todo[n].row, sources[todo[n].id], was, becomes)
  }

  /** The sources from position k on are as they were read. */
  ghost predicate AsRead(todo: seq<Snapshot>, k: nat, sources: Sources) {
    forall n :: k <= n < |todo| ==> todo[n].id in sources && sources[todo[n].id] == todo[n].row
  }

  lemma NothingHandled(world: World, job: Run.Job, todo: seq<Snapshot>, sources: Sources, was: Views)
    ensures HandledUpTo(world, job, todo, 0, sources, was, was) && Untouched(todo, 0, was, was)
  {
  }

  /** What was handled before another source is processed stays handled. */
  lemma StillHandled(world: World, job: Run.Job, i: SourceId, before: SourceRow, after: SourceRow, was: Views,
                     becomes: Views, last: Views, other: SourceRow)
    requires Handled(world, job, i, before, after, was, becomes) && OnlyChannelOf(other, becomes, last)
    requires before.kind == Telegram && other.kind == Telegram ==> before.sourceId != other.sourceId
    ensures Handled(world, job, i, before, after, was, last)
  {
    hide Run.ResultOf, OutsideOf;
  }

  /** The sources before position k stay handled while source k is worked on. */
  lemma HandledMeanwhile(world: World, job: Run.Job, todo: seq<Snapshot>, k: nat, sources: Sources, row: SourceRow,
                         was: Views, middle: Views, last: Views)
    requires OncePerSource(todo) && ChannelsOnce(todo) && k < |todo|
    requires HandledUpTo(world, job, todo, k, sources, was, middle) && OnlyChannelOf(todo[k].row, middle, last)
    ensures HandledUpTo(world, job, todo, k, sources[todo[k].id := row], was, last)
  {
    hide Handled, ResultIn, OnlyChannelOf;
    forall n | 0 <= n < k
      ensures todo[n].id in sources && todo[n].id != todo[k].id
      ensures Handled(world, job, todo[n].id, todo[n].row, sources[todo[n].id], was, last)
    {
      StillHandled(world, job, todo[n].id, todo[n].row, sources[todo[n].id], was, middle, last, todo[k].row);
    }
  }

  lemma AsReadMeanwhile(todo: seq<Snapshot>, k: nat, sources: Sources, row: SourceRow)
    requires OncePerSource(todo) && k < |todo| && AsRead(todo, k, sources)
    ensures AsRead(todo, k + 1, sources[todo[k].id := row])
  {
  }

  /** A source that was attempted since the previous one was attempted since the start. */
  lemma AttemptedSinceStart(world: World, job: Run.Job, i: SourceId, before: SourceRow, after: SourceRow, was: Views,
                            middle: Views, last: Views, outcomes: nat -> Outcome, first: nat, next: nat)
    requires Attempted(world, job, i, before, after, middle, last, outcomes, first, next)
    requires was.Keys == middle.Keys && ChannelKept(before, was, middle)
    ensures Attempted(world, job, i, before, after, was, last, outcomes, first, next)
  {
    hide Run.ResultOf, OutsideOf;
  }

  lemma UntouchedNext(todo: seq<Snapshot>, k: nat, was: Views, middle: Views, last: Views)
    requires ChannelsOnce(todo) && k < |todo| && Untouched(todo, k, was, middle)
    requires OnlyChannelOf(todo[k].row, middle, last)
    ensures Untouched(todo, k + 1, was, last)
  {
  }

  lemma UntouchedChannel(todo: seq<Snapshot>, k: nat, was: Views, becomes: Views)
    requires k < |todo| && Untouched(todo, k, was, becomes)
    ensures was.Keys == becomes.Keys && ChannelKept(todo[k].row, was, becomes)
  {
  }

  lemma HandledNext(world: World, job: Run.Job, todo: seq<Snapshot>, k: nat, sources: Sources, was: Views,
                    becomes: Views)
    requires k < |todo| && HandledUpTo(world, job, todo, k, sources, was, becomes) && todo[k].id in sources
    requires Handled(world, job, todo[k].id, todo[k].row, sources[todo[k].id], was, becomes)
    ensures HandledUpTo(world, job, todo, k + 1, sources, was, becomes)
  {
    hide Handled;
  }

  lemma SkippedSource(todo: seq<Snapshot>, k: nat, sources: Sources, was: Views, becomes: Views)
    requires k < |todo| && AsRead(todo, k, sources) && Untouched(todo, k, was, becomes)
    ensures AsRead(todo, k + 1, sources) && Untouched(todo, k + 1, was, becomes)
  {
  }

  /**
   The worker stopped at position k of its list because a statement failed: what comes before is handled, and what comes
   after is as it was read.
   */
  ghost predicate StoppedAt(world: World, job: Run.Job, todo: seq<Snapshot>, k: nat, sources: Sources, was: Views,
                            becomes: Views, outcomes: nat -> Outcome, first: nat, next: nat)
  {
    && k < |todo| && todo[k].id in sources && !Delivered(todo[k].row.status)
    && HandledUpTo(world, job, todo, k, sources, was, becomes) && AsRead(todo, k + 1, sources)
    && !AllServed(outcomes, first, next)
    && Attempted(world, job, todo[k].id, todo[k].row, sources[todo[k].id], was, becomes, outcomes, first, next)
  }

  /** The loop over the sources of a claimed job; it stops at the first failing statement. */
  method ProcessAll(store: Store, world: World, job: Run.Job, j: JobId, todo: seq<Snapshot>)
    returns (ok: bool, ghost reached: nat, ghost first: nat)
    requires OnTrack(At(j, todo, 0), store.jobs, SourcesOf(store.sources, j))
    requires OncePerSource(todo) && ChannelsOnce(todo)
    requires ValidChannels(world) && forall n :: 0 <= n < |todo| ==> Known(world, todo[n].row)
    modifies store, world.channels.Values, world.tables.Values
    ensures ValidChannels(world)
    ensures store.jobs == old(store.jobs) && OthersKept(old(store.sources), store.sources, j)
    ensures old(store.calls) <= first <= store.calls && AllServed(store.outcomes, old(store.calls), first)
    ensures ok <==> AllServed(store.outcomes, old(store.calls), store.calls)
    ensures ok ==> OnTrack(At(j, todo, |todo|), store.jobs, SourcesOf(store.sources, j))
    ensures ok ==> HandledUpTo(world, job, todo, |todo|, store.sources, old(ViewsOf(world)), ViewsOf(world))
    ensures !ok ==> StoppedAt(world, job, todo, reached, store.sources, old(ViewsOf(world)), ViewsOf(world),
                              store.outcomes, first, store.calls)
  {
    hide OnTrack, ResultIn, ValidChannels, HandledUpTo, ViewsOf, Untouched, OnlyChannelOf, ChannelsOnce, Attempted,
        AsRead, AllServed, ChannelKept;
    ghost var before, was := store.sources, ViewsOf(world);
    NothingHandled(world, job, todo, store.sources, was);
    AllRows(j, todo, store.jobs, store.sources);
    NoneYet(store.outcomes, store.calls);
    reached, first := 0, store.calls;
    for k := 0 to |todo|
      invariant ValidChannels(world)
      invariant store.jobs == old(store.jobs) && OthersKept(before, store.sources, j)
      invariant OnTrack(At(j, todo, k), store.jobs, SourcesOf(store.sources, j))
      invariant HandledUpTo(world, job, todo, k, store.sources, was, ViewsOf(world))
      invariant Untouched(todo, k, was, ViewsOf(world)) && AsRead(todo, k, store.sources)
      invariant first == store.calls >= old(store.calls)
      invariant AllServed(store.outcomes, old(store.calls), store.calls)
    {
      CurrentRow(j, todo, k, store.jobs, store.sources);
      if Delivered(todo[k].row.status) {
        SkippedOnTrack(At(j, todo, k), store.jobs, SourcesOf(store.sources, j));
        SkippedSource(todo, k, store.sources, was, ViewsOf(world));
      } else {
        ghost var sources, middle := store.sources, ViewsOf(world);
        ok := ProcessOne(store, world, job, j, todo[k].id, todo[k].row);
        ghost var row, last := store.sources[todo[k].id], ViewsOf(world);
        OthersKeptOn(before, sources, j, todo[k].id, row);
        ServedBoth(store.outcomes, old(store.calls), first, store.calls);
        HandledMeanwhile(world, job, todo, k, sources, row, was, middle, last);
        AsReadMeanwhile(todo, k, sources, row);
        UntouchedChannel(todo, k, was, middle);
        AttemptedSinceStart(world, job, todo[k].id, todo[k].row, row, was, middle, last, store.outcomes, first,
                            store.calls);
        if !ok {
          reached := k;
          return;
        }
        AttemptServed(world, job, todo[k].id, todo[k].row, row, was, last, store.outcomes, first, store.calls);
        ResultHasOutcome(world, job, todo[k].id, todo[k].row, row, was, last);
        ProcessedOnTrack(j, todo, k, store.jobs, sources, row);
        UntouchedNext(todo, k, was, middle, last);
        first := store.calls;
      }
      HandledNext(world, job, todo, k, store.sources, was, ViewsOf(world));
    }
    ok := true;
  }

  /** What the worker read is what the table held when it started. */
  lemma AllRows(j: JobId, todo: seq<Snapshot>, jobs: Jobs, sources: Sources)
    requires OnTrack(At(j, todo, 0), jobs, SourcesOf(sources, j))
    ensures AsRead(todo, 0, sources)
  {
    forall n | 0 <= n < |todo| ensures todo[n].id in sources && sources[todo[n].id] == todo[n].row {
      assert RowAt(At(j, todo, 0), n, SourcesOf(sources, j)[todo[n].id]);
    }
  }

  lemma NoneYet(outcomes: nat -> Outcome, first: nat)
    ensures AllServed(outcomes, first, first)
  {
  }

  // ----- One job -----

  lemma AllThrough(j: JobId, todo: seq<Snapshot>, jobs: Jobs, sources: Sources)
    requires OnTrack(At(j, todo, |todo|), jobs, SourcesOf(sources, j))
    ensures j in jobs && forall i :: i in sources && sources[i].job == j ==> SourceOutcome(sources[i].status)
  {
    var m := SourcesOf(sources, j);
    AllHaveOutcome(At(j, todo, |todo|), m);
    assert forall i :: i in sources && sources[i].job == j ==> i in m && m[i] == sources[i];
  }

  lemma FinishSettles(db: Db, j: JobId, now: int)
    requires j in db.jobs
    requires forall i :: i in db.sources && db.sources[i].job == j ==> SourceOutcome(db.sources[i].status)
    ensures var t := FinishJob(db, j, now);
            && t.sources == db.sources && t.jobs.Keys == db.jobs.Keys
            && (forall i :: i in db.jobs && i != j ==> t.jobs[i] == db.jobs[i])
            && (JobSources(db, j) != map[] ==> Settled(t.jobs[j], JobSources(t, j)))
  {
  }

  /** Every source of the job is handled. */
  ghost predicate AllHandled(world: World, job: Run.Job, j: JobId, before: Sources, after: Sources, was: Views,
                             becomes: Views)
  {
    forall i :: i in before && before[i].job == j ==>
      i in after && Handled(world, job, i, before[i], after[i], was, becomes)
  }

  lemma HandledAll(world: World, job: Run.Job, j: JobId, todo: seq<Snapshot>, before: Sources, after: Sources,
                   was: Views, becomes: Views)
    requires Lists(todo, SourcesOf(before, j)) && HandledUpTo(world, job, todo, |todo|, after, was, becomes)
    ensures AllHandled(world, job, j, before, after, was, becomes)
  {
    hide Handled;
    forall i | i in before && before[i].job == j
      ensures i in after && Handled(world, job, i, before[i], after[i], was, becomes)
    {
      assert i in SourcesOf(before, j);
      var k := IdsIndex(todo, i);
      assert SourcesOf(before, j)[todo[k].id] == todo[k].row;
    }
  }

  /** The unique key of the sources, as far as channels go: a job names a channel once. */
  ghost predicate UniqueChannels(sources: Sources) {
    forall i, k :: i in sources && k in sources && i != k && sources[i].job == sources[k].job
                   && sources[i].kind == Telegram && sources[k].kind == Telegram ==>
      sources[i].sourceId != sources[k].sourceId
  }

  lemma ListedChannelsOnce(sources: Sources, j: JobId, todo: seq<Snapshot>)
    requires UniqueChannels(sources) && Lists(todo, SourcesOf(sources, j))
    ensures ChannelsOnce(todo)
  {
    hide Ids;
    forall m, n | 0 <= m < n < |todo| && todo[m].row.kind == Telegram && todo[n].row.kind == Telegram
      ensures todo[m].row.sourceId != todo[n].row.sourceId
    {
      IdsContain(todo, m);
      IdsContain(todo, n);
    }
  }

  lemma KnownRows(world: World, todo: seq<Snapshot>, m: Sources)
    requires Lists(todo, m) && forall i :: i in m ==> Known(world, m[i])
    ensures forall n :: 0 <= n < |todo| ==> Known(world, todo[n].row)
  {
    hide Known;
  }

  /** The worker was at one of the sources of the job, in the order of their IDs, when a statement failed. */
  ghost predicate Stopped(world: World, job: Run.Job, j: JobId, before: Sources, after: Sources, was: Views,
                          becomes: Views, outcomes: nat -> Outcome, next: nat)
  {
    exists todo: seq<Snapshot>, k: nat, first: nat ::
      && Lists(todo, SourcesOf(before, j)) && ById(todo)
      && StoppedAt(world, job, todo, k, after, was, becomes, outcomes, first, next)
  }

  /**
   A run that issued statements from `first` to before `next`. It got as far as FinishJob, and then every source is
   handled; or it stopped at a source.
   */
  ghost predicate Ran(world: World, job: Run.Job, j: JobId, before: Sources, after: Sources, was: Views, becomes: Views,
                      outcomes: nat -> Outcome, first: nat, next: nat, finishing: bool)
  {
    if finishing then
      && first < next && AllServed(outcomes, first, next - 1)
      && AllHandled(world, job, j, before, after, was, becomes)
    else Stopped(world, job, j, before, after, was, becomes, outcomes, next)
  }

  /**
   runNext on a job that Claim returned, whose publication range is not part of the row here; `ok` is false when a
   statement failed and the run stopped there. `finishing` tells whether FinishJob was issued, which takes that all
   statements on the sources were served; without it the job rows are as they were.
   */
  method RunJob(store: Store, world: World, j: JobId, from: Option<Instant>, to: Option<Instant>, now: int)
    returns (ok: bool, ghost finishing: bool)
    requires j in store.jobs && store.jobs[j].status == JobRunning
    requires ValidChannels(world) && forall i :: i in store.sources ==> Known(world, store.sources[i])
    requires UniqueChannels(store.sources)
    modifies store, world.channels.Values, world.tables.Values
    ensures ValidChannels(world)
    ensures OthersKept(old(store.sources), store.sources, j)
    ensures store.calls > old(store.calls) && (ok <==> AllServed(store.outcomes, old(store.calls), store.calls))
    ensures var job := Run.Job(old(store.jobs)[j].trigger, from, to, old(store.jobs)[j].limit);
            Ran(world, job, j, old(store.sources), store.sources, old(ViewsOf(world)), ViewsOf(world), store.outcomes,
                old(store.calls), store.calls, finishing)
    ensures !finishing || store.outcomes(store.calls - 1) == Refused ==> !ok && store.jobs == old(store.jobs)
    ensures store.jobs.Keys == old(store.jobs).Keys
    ensures forall i :: i in store.jobs && i != j ==> store.jobs[i] == old(store.jobs)[i]
    ensures finishing && store.outcomes(store.calls - 1) != Refused ==>
              store.Tables() == FinishJob(Db(old(store.jobs), store.sources), j, now)
    ensures finishing && store.outcomes(store.calls - 1) != Refused && JobSources(store.Tables(), j) != map[] ==>
              j in store.jobs && Settled(store.jobs[j], JobSources(store.Tables(), j))
  {
    hide Covers, Progress, Lists, OnTrack, FinishJob, Settled, ValidChannels, HandledUpTo, AllHandled, Known, ViewsOf,
        UniqueChannels, ChannelsOnce, OncePerSource, AllServed, StoppedAt, ById;
    var job := Run.Job(store.jobs[j].trigger, from, to, store.jobs[j].limit);
    var todo := ListSources(SourcesOf(store.sources, j));
    ghost var before, was := store.sources, ViewsOf(world);
    ListedChannelsOnce(store.sources, j, todo);
    ClaimedOnTrack(j, todo, store.jobs, SourcesOf(store.sources, j));
    KnownRows(world, todo, SourcesOf(store.sources, j));
    ListedOnce(todo, SourcesOf(store.sources, j));
    ghost var reached, first;
    ok, reached, first := ProcessAll(store, world, job, j, todo);
    finishing := ok;
    if ok {
      ghost var middle := store.calls;
      HandledAll(world, job, j, todo, before, store.sources, was, ViewsOf(world));
      AllThrough(j, todo, store.jobs, store.sources);
      FinishSettles(Db(store.jobs, store.sources), j, now);
      ok := store.Finish(j, now);
      ServedBoth(store.outcomes, old(store.calls), middle, store.calls);
      ServedOne(store.outcomes, middle);
      assert store.Tables() == Db(store.jobs, store.sources);
    }
  }

  /** The row the claim wrote, with nothing else of it changed: running, under a lease of this owner. */
  predicate UnderLease(before: JobRow, after: JobRow, owner: Owner, now: int, lease: int) {
    && after.status == JobRunning && after.owner == Some(owner) && after.expires == Some(now + lease)
    && after.startedAt == (if before.startedAt.Some? then before.startedAt else Some(now))
    && after.(status := before.status, owner := before.owner, expires := before.expires,
              startedAt := before.startedAt) == before
  }

  /** Such a job can be claimed again as soon as the lease has expired, and not before. */
  lemma ClaimableOnceExpired(jobs: Jobs, j: JobId, before: JobRow, owner: Owner, now: int, lease: int, time: int)
    requires j in jobs && UnderLease(before, jobs[j], owner, now, lease)
    ensures Claimable(jobs, j, time) <==> now + lease < time
  {
  }

  lemma ListedOnce(todo: seq<Snapshot>, m: Sources)
    requires Lists(todo, m)
    ensures OncePerSource(todo)
  {
  }

  /**
   runNext: claim at most one job and run it. A job that was claimed is settled, or a statement failed; then it is left
   running under the lease of the claim, unless FinishJob was carried out without an answer.
   */
  method RunNext(store: Store, world: World, owner: Owner, lease: int, now: int, advisory: bool, locked: set<JobId>,
                 from: Option<Instant>, to: Option<Instant>, later: int)
    returns (claimed: Option<JobId>, ok: bool, ghost finishing: bool)
    requires ValidChannels(world) && forall i :: i in store.sources ==> Known(world, store.sources[i])
    requires UniqueChannels(store.sources)
    modifies store, world.channels.Values, world.tables.Values
    ensures store.calls > old(store.calls) && (ok <==> AllServed(store.outcomes, old(store.calls), store.calls))
    ensures claimed.None? <==> store.outcomes(old(store.calls)) == Refused || !advisory ||
                               forall j :: j in old(store.jobs) && Claimable(old(store.jobs), j, now) ==> j in locked
    ensures claimed.None? ==> store.Tables() == old(store.Tables()) && store.calls == old(store.calls) + 1
    ensures claimed.None? ==> !finishing && ViewsOf(world) == old(ViewsOf(world))
    ensures claimed.Some? ==>
              var j := claimed.value;
              && FirstClaimable(old(store.jobs), j, now, locked)
              && OthersKept(old(store.sources), store.sources, j)
              && store.jobs.Keys == old(store.jobs).Keys
              && (forall i :: i in store.jobs && i != j ==> store.jobs[i] == old(store.jobs)[i])
    ensures claimed.Some? && (!finishing || store.outcomes(store.calls - 1) == Refused) ==>
              UnderLease(old(store.jobs)[claimed.value], store.jobs[claimed.value], owner, now, lease)
    ensures claimed.Some? && !finishing ==> !ok
    ensures claimed.Some? && AllServed(store.outcomes, old(store.calls), old(store.calls) + 2) ==>
              var row := old(store.jobs)[claimed.value];
              Ran(world, Run.Job(row.trigger, from, to, row.limit), claimed.value, old(store.sources), store.sources,
                  old(ViewsOf(world)), ViewsOf(world), store.outcomes, old(store.calls) + 2, store.calls, finishing)
    ensures claimed.Some? && !AllServed(store.outcomes, old(store.calls), old(store.calls) + 2) ==>
              !finishing && store.sources == old(store.sources) && ViewsOf(world) == old(ViewsOf(world))
    ensures finishing && store.outcomes(store.calls - 1) != Refused &&
            JobSources(store.Tables(), claimed.value) != map[]
            ==> Settled(store.jobs[claimed.value], JobSources(store.Tables(), claimed.value))
  {
    hide FirstClaimable, Settled, OthersKept, ValidChannels, AllHandled, Known, ViewsOf, UniqueChannels, SourcesOf,
        Ran, FinishJob, ClaimJob, UnderLease, AllServed, Claimable, JobSources;
    finishing := false;
    ghost var start := store.calls;
    ok, claimed := store.Claim(owner, lease, now, advisory, locked);
    ghost var middle := store.calls;
    if claimed.Some? {
      ClaimRuns(old(store.Tables()), claimed.value, owner, now, lease, locked);
      assert store.Tables() == Db(store.jobs, store.sources);
      NothingElse(store.sources, claimed.value);
      BothOfClaim(store.outcomes, start, middle);
      if ok {
        ok, finishing := RunJob(store, world, claimed.value, from, to, later);
        ServedBoth(store.outcomes, start, middle, store.calls);
      }
    }
  }

  /** The two statements of a claim, the second of which is issued after a served first one. */
  lemma BothOfClaim(outcomes: nat -> Outcome, first: nat, next: nat)
    requires next == first + if outcomes(first) == Served then 2 else 1
    ensures AllServed(outcomes, first, next) <==> next == first + 2 && AllServed(outcomes, first, first + 2)
    ensures next < first + 2 ==> !AllServed(outcomes, first, first + 2)
  {
    assert first < first + 2;
  }

  lemma NothingElse(sources: Sources, j: JobId)
    ensures OthersKept(sources, sources, j)
  {
  }

  lemma ClaimRuns(db: Db, j: JobId, owner: Owner, now: int, lease: int, locked: set<JobId>)
    requires FirstClaimable(db.jobs, j, now, locked)
    ensures var t := ClaimJob(db, j, owner, now, lease);
            && t.sources == db.sources && j in t.jobs && t.jobs[j].status == JobRunning && t.jobs.Keys == db.jobs.Keys
            && t.jobs[j].trigger == db.jobs[j].trigger && t.jobs[j].limit == db.jobs[j].limit
            && UnderLease(db.jobs[j], t.jobs[j], owner, now, lease)
            && forall i :: i in db.jobs && i != j ==> t.jobs[i] == db.jobs[i]
  {
  }
}
