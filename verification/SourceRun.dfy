/**
 One source of one job: processSource and what it calls. The clock, the text pipeline and the answers of other services
 are parameters or nondeterministic.
 */
module SourceRun {
  import opened Faults
  import opened Instants
  import opened Options
  import opened Sequences
  import opened TelegramReader
  import opened BatchImport
  import opened Checkpoints
  import Q = QueueStore
  import opened BacklogDrain

  datatype Problem =
    | NoRange
    | CheckpointUnreadable
    | ReadFailed
    | NotNormalized(id: int)
    | PageRejected
    | NotImported(failure: Failure)
    | NothingAccepted
    | CheckpointUnwritable

  /** What the worker needs of a job. */
  datatype Job = Job(trigger: Q.Trigger, from: Option<Instant>, to: Option<Instant>, limit: nat)

  /** The row of collection_checkpoints for one channel, and the outcomes of the statements on it. */
  class CheckpointTable {
    const outcomes: nat -> Outcome
    var row: Checkpoint
    var calls: nat

    constructor (outcomes: nat -> Outcome)
      ensures row == NoCheckpoint && calls == 0 && this.outcomes == outcomes
    {
      row, calls := NoCheckpoint, 0;
      this.outcomes := outcomes;
    }

    /** GetCheckpoint */
    method Get() returns (ok: bool, c: Checkpoint)
      modifies this`calls
      ensures calls == old(calls) + 1 && ok == (outcomes(old(calls)) == Served) && c == row
    {
      ok, c := outcomes(calls) == Served, row;
      calls := calls + 1;
    }

    /** UpsertCheckpoint; an error may be reported although the row was written. */
    method Put(latest: Candidate) returns (ok: bool)
      modifies this
      ensures calls == old(calls) + 1 && ok == (outcomes(old(calls)) == Served)
      ensures row == if outcomes(old(calls)) == Refused then old(row) else Upsert(old(row), latest)
      ensures row == if outcomes(old(calls)) == Refused || (old(row).At? && old(row).id >= latest.messageId)
                     then old(row) else At(latest.messageId, latest.publishedAt)
    {
      var outcome := outcomes(calls);
      calls := calls + 1;
      if outcome != Refused {
        row := Upsert(row, latest);
      }
      ok := outcome == Served;
    }
  }

  /** The checkpoint a run of this job starts from. */
  function StartCheckpoint(job: Job, c: Checkpoint): Checkpoint {
    if job.trigger == Q.Manual then NoCheckpoint else c
  }

  /** The items a run of the job hands on when its first page shows history h. */
  function JobItems(job: Job, c: Checkpoint, h: seq<Entry>): seq<Entry>
    requires job.from.Some? && job.to.Some?
  {
    var start := StartCheckpoint(job, c);
    ReadResult(h, RunFrom(start, job.from.value), job.to.value, RunAfter(start), job.limit)
  }

  /** A manual job reads its own range from the first message on, whatever the checkpoint. */
  lemma ManualIgnoresCheckpoint(job: Job, c: Checkpoint, h: seq<Entry>)
    requires job.trigger == Q.Manual && job.from.Some? && job.to.Some?
    ensures JobItems(job, c, h) == ReadResult(h, job.from.value, job.to.value, 0, job.limit)
  {
  }

  /** Any other job reads on after the checkpoint, and from its date if that is earlier than the range. */
  lemma OthersStartAtCheckpoint(job: Job, id: int, date: Instant, h: seq<Entry>)
    requires job.trigger != Q.Manual && job.from.Some? && job.to.Some?
    ensures JobItems(job, NoCheckpoint, h) == ReadResult(h, job.from.value, job.to.value, 0, job.limit)
    ensures JobItems(job, At(id, date), h)
         == ReadResult(h, if date < job.from.value then date else job.from.value, job.to.value, id, job.limit)
  {
  }

  /**
   When nothing is hidden, a manual job hands on the oldest `limit` text messages of its range, in whole seconds,
   whether or not a checkpoint lies beyond them.
   */
  lemma ManualJobItems(job: Job, c: Checkpoint, h: seq<Entry>)
    requires ValidHistory(h) && job.trigger == Q.Manual && job.from.Some? && job.to.Some?
    requires !Hidden(h, job.from.value, job.to.value, 0)
    ensures JobItems(job, c, h) == Take(Filter(h, (e: Entry) => Text(e) && job.from.value <= e.date as real
                                                                && e.date < job.to.value.Floor), job.limit)
  {
    hide ReadResult, Hidden, ValidHistory;
    var from, to := job.from.value, job.to.value;
    ManualIgnoresCheckpoint(job, c, h);
    ReadWholeSeconds(h, from, to, 0, job.limit);
    forall e | e in h
      ensures Eligible(e, from, FloorSecond(to), 0) <==> Text(e) && from <= e.date as real && e.date < to.Floor
    {
      var i :| 0 <= i < |h| && h[i] == e;
      HistoryOrder(h, i, i);
    }
    FilterCongruence(h, (e: Entry) => Eligible(e, from, FloorSecond(to), 0),
                     (e: Entry) => Text(e) && from <= e.date as real && e.date < to.Floor);
  }

  /** Problems met before anything is sent to the tasks service. */
  predicate Early(p: Problem) {
    p.NoRange? || p.CheckpointUnreadable? || p.ReadFailed? || p.NotNormalized? || p.PageRejected?
  }

  predicate HasRange(job: Job) {
    job.from.Some? && job.to.Some?
  }

  /** The statements on the checkpoint that collecting needs. */
  function Lookups(job: Job): nat {
    if HasRange(job) && job.trigger != Q.Manual then 1 else 0
  }

  /** The entry with this ID is the first one that the pipeline rejects. */
  ghost predicate FirstRejected(items: seq<Entry>, normalizes: Entry -> bool, id: int) {
    exists k :: 0 <= k < |items| && items[k].id == id && !normalizes(items[k]) && AllNormalize(items[..k], normalizes)
  }

  /** The loop that normalises messages; it stops at the first one the pipeline rejects. */
  method NormalizeAll(items: seq<Entry>, normalizes: Entry -> bool)
    returns (bad: Option<Entry>, candidates: seq<Candidate>)
    ensures bad.None? <==> forall e :: e in items ==> normalizes(e)
    ensures bad.None? ==> candidates == CandidatesOf(items)
    ensures bad.Some? ==> FirstRejected(items, normalizes, bad.value.id)
  {
    candidates := [];
    for i := 0 to |items|
      invariant candidates == CandidatesOf(items)[..i]
      invariant forall k :: 0 <= k < i ==> normalizes(items[k])
    {
      if !normalizes(items[i]) {
        assert items[i] in items;
        return Some(items[i]), [];
      }
      candidates := candidates + [CandidateOf(items[i])];
    }
    bad := None;
  }

  /**
   collectTelegram. Each problem is reported if and only if its cause occurred: no range, a checkpoint that was needed
   and could not be read, a failing request, or a message that the pipeline rejects, which fails the whole source.
   */
  method CollectTelegram(job: Job, table: CheckpointTable, channel: Channel, normalizes: Entry -> bool)
    returns (problem: Option<Problem>, candidates: seq<Candidate>, ghost seen: seq<Entry>)
    requires ValidHistory(channel.history)
    modifies channel, table`calls
    ensures ValidHistory(channel.history) && old(channel.history) <= channel.history
    ensures table.calls == old(table.calls) + Lookups(job)
    ensures problem == Some(NoRange) <==> !HasRange(job)
    ensures problem == Some(CheckpointUnreadable) <==>
            HasRange(job) && job.trigger != Q.Manual && table.outcomes(old(table.calls)) != Served
    ensures problem == Some(ReadFailed) <==>
            exists r :: old(channel.requests) <= r < channel.requests && channel.fails(r)
    ensures problem.Some? ==>
            problem.value in {NoRange, CheckpointUnreadable, ReadFailed} || problem.value.NotNormalized?
    ensures problem.None? || problem.value.NotNormalized? ==>
            HasRange(job) && old(channel.history) <= seen <= channel.history && ValidHistory(seen)
    ensures problem.Some? && problem.value.NotNormalized? ==>
            FirstRejected(JobItems(job, table.row, seen), normalizes, problem.value.id)
    ensures problem.None? ==> AllNormalize(JobItems(job, table.row, seen), normalizes)
    ensures problem.None? ==> candidates == CandidatesOf(JobItems(job, table.row, seen))
    ensures problem.None? && job.trigger == Q.Manual ==>
            candidates == CandidatesOf(ReadResult(seen, job.from.value, job.to.value, 0, job.limit))
  {
    hide ReadResult;
    candidates, seen := [], channel.history;
    if job.from.None? || job.to.None? {
      return Some(NoRange), candidates, seen;
    }
    var afterId, from := 0, job.from.value;
    if job.trigger != Q.Manual {
      var found, c := table.Get();
      if !found {
        return Some(CheckpointUnreadable), candidates, seen;
      }
      if c.At? {
        afterId := c.id;
        if Before(c.publishedAt, from) {
          from := c.publishedAt;
        }
      }
    }
    var ok, items;
    ghost var pages;
    ok, items, seen, pages := ReadRange(channel, from, job.to.value, afterId, job.limit);
    if !ok {
      return Some(ReadFailed), candidates, seen;
    }
    var bad;
    bad, candidates := NormalizeAll(items, normalizes);
    problem := if bad.None? then None else Some(NotNormalized(bad.value.id));
  }

  /** The loop of processSource that picks the candidate with the largest message ID. */
  method LatestOf(successful: seq<Candidate>) returns (last: Candidate)
    requires successful != []
    ensures last == Latest(successful)
  {
    last := successful[0];
    assert successful[..1] == [last];
    for i := 1 to |successful|
      invariant last == Latest(successful[..i])
    {
      assert successful[..i + 1][..i] == successful[..i];
      if successful[i].messageId > last.messageId {
        last := successful[i];
      }
    }
    assert successful[..|successful|] == successful;
  }

  /** The website reader by source and URL, and whether the pipeline accepts a page. */
  datatype Web = Web(read: (string, string) -> Option<string>, accepts: string -> bool)

  /** The candidate of a page has no message ID and no publication date. */
  function PageCandidate(url: string): Candidate {
    Candidate(OfUrl(url), 0, Second(0))
  }

  /** The page of the source can be read, and the pipeline accepts it. */
  predicate PageAccepted(row: Q.SourceRow, web: Web) {
    web.read(row.sourceId, row.url).Some? && web.accepts(web.read(row.sourceId, row.url).value)
  }

  /** collectWebsite: one page, one candidate; a page that cannot be read is told from one that the pipeline rejects. */
  method CollectWebsite(sourceId: string, url: string, web: Web)
    returns (problem: Option<Problem>, candidates: seq<Candidate>)
    ensures problem == Some(ReadFailed) <==> web.read(sourceId, url) == None
    ensures problem == Some(PageRejected) <==>
            web.read(sourceId, url).Some? && !web.accepts(web.read(sourceId, url).value)
    ensures problem.Some? ==> problem.value in {ReadFailed, PageRejected} && candidates == []
    ensures problem.None? ==> candidates == [PageCandidate(url)]
    ensures problem.None? ==> candidates[0].externalId == OfUrl(url) && candidates[0].messageId == 0
  {
    problem, candidates := None, [];
    var page := web.read(sourceId, url);
    if page.None? {
      return Some(ReadFailed), candidates;
    }
    if !web.accepts(page.value) {
      return Some(PageRejected), candidates;
    }
    candidates := [PageCandidate(url)];
  }

  function TotalsOf(candidates: seq<Candidate>, t: Tally): Q.Totals {
    Q.Totals(|candidates|, t.imported, t.duplicates, t.invalid)
  }

  /** The import succeeded, and accepted something if there was anything. */
  predicate Accepted(candidates: seq<Candidate>, t: Tally) {
    t.failure == NoFailure && (candidates == [] || t.successful != [])
  }

  /** The row of a source that went well; an error message of an earlier attempt is left in it. */
  function SucceededRow(row: Q.SourceRow, job: Job, candidates: seq<Candidate>, t: Tally): Q.SourceRow {
    row.(status := if |candidates| == job.limit then Q.SourceTruncated else Q.SourceSucceeded,
         totals := TotalsOf(candidates, t))
  }

  function FailedRow(row: Q.SourceRow, totals: Q.Totals, message: string): Q.SourceRow {
    row.(status := Q.SourceFailed, totals := totals, message := message)
  }

  /** A run of this source moves the checkpoint. */
  predicate Advances(job: Job, row: Q.SourceRow) {
    row.kind == Q.Telegram && job.trigger != Q.Manual
  }

  /** The checkpoint is to be written: the source advances it, and something was accepted. */
  predicate Writes(job: Job, row: Q.SourceRow, candidates: seq<Candidate>, t: Tally) {
    Advances(job, row) && t.failure == NoFailure && t.successful != []
  }

  /** The part of processSource that moves the checkpoint. */
  method Advance(job: Job, row: Q.SourceRow, t: Tally, table: CheckpointTable) returns (ok: bool)
    requires t.failure == NoFailure
    modifies table
    ensures ok <==> Advances(job, row) && t.successful != [] ==> table.outcomes(old(table.calls)) == Served
    ensures table.row == if Advances(job, row) && table.outcomes(old(table.calls)) != Refused
                         then AfterImport(old(table.row), t) else old(table.row)
  {
    ok := true;
    if row.kind == Q.Telegram && job.trigger != Q.Manual && |t.successful| > 0 {
      var last := LatestOf(t.successful);
      ok := table.Put(last);
    }
  }

  /**
   The part of processSource that handles the collected candidates. Each problem is reported if and only if its cause
   occurred; the checkpoint moves exactly when it is to be written and the statement is carried out.
   */
  method SendCandidates(job: Job, row: Q.SourceRow, candidates: seq<Candidate>, table: CheckpointTable, sink: Sink,
                        describe: Problem -> string)
    returns (result: Q.SourceRow, problem: Option<Problem>, ghost t: Tally)
    requires sink.sent == []
    modifies table, sink
    ensures t == CountFrom(EMPTY, candidates, 0, 0, sink.replies)
    ensures problem.Some? && problem.value.NotImported? <==> t.failure != NoFailure
    ensures problem.Some? && problem.value.NotImported? ==> problem.value.failure == t.failure
    ensures problem == Some(NothingAccepted) <==> t.failure == NoFailure && candidates != [] && t.successful == []
    ensures problem == Some(CheckpointUnwritable) <==>
            Writes(job, row, candidates, t) && table.outcomes(old(table.calls)) != Served
    ensures problem.Some? ==>
            problem.value in {NothingAccepted, CheckpointUnwritable} || problem.value.NotImported?
    ensures result == if problem.None? then SucceededRow(row, job, candidates, t)
                      else FailedRow(row, TotalsOf(candidates, t), describe(problem.value))
    ensures table.row == if Writes(job, row, candidates, t) && table.outcomes(old(table.calls)) != Refused
                         then Upsert(old(table.row), Latest(t.successful)) else old(table.row)
    ensures row.kind != Q.Telegram || job.trigger == Q.Manual ==> table.row == old(table.row)
  {
    hide CountFrom, Latest;
    var tally := ImportCandidates(sink, candidates);
    t := tally;
    if tally.failure != NoFailure {
      problem := Some(NotImported(tally.failure));
    } else if |candidates| > 0 && |tally.successful| == 0 {
      problem := Some(NothingAccepted);
    } else {
      var ok := Advance(job, row, tally, table);
      NothingSuccessful(candidates, tally, sink.replies);
      problem := if ok then None else Some(CheckpointUnwritable);
    }
    result := if problem.None? then SucceededRow(row, job, candidates, tally)
              else FailedRow(row, TotalsOf(candidates, tally), describe(problem.value));
  }

  lemma NothingSuccessful(candidates: seq<Candidate>, t: Tally, replies: nat -> Reply)
    requires t == CountFrom(EMPTY, candidates, 0, 0, replies)
    ensures candidates == [] ==> t.successful == []
  {
  }

  /**
   processSource. Ghost results: the candidates, the tally of their import and the history the reader saw. The source is
   delivered exactly when every step went well, and each problem is reported exactly when its cause occurred. The
   checkpoint moves only for a Telegram source of a job that is not manual, after all candidates were settled and some
   accepted, and then to the latest accepted one. A source that fails before anything is sent keeps the counters of the
   row it was read with.
   */
  method ProcessSource(job: Job, row: Q.SourceRow, table: CheckpointTable, channel: Channel, sink: Sink,
                       normalizes: Entry -> bool, web: Web, describe: Problem -> string)
    returns (result: Q.SourceRow, problem: Option<Problem>, ghost candidates: seq<Candidate>, ghost t: Tally)
    requires ValidHistory(channel.history) && sink.sent == []
    modifies table, channel, sink
    ensures ValidHistory(channel.history) && old(channel.history) <= channel.history
    ensures Q.SameSource(result, row)
    ensures problem.None? ==> Q.Delivered(result.status) && result.message == row.message
    ensures problem.None? ==> (result.status == Q.SourceTruncated <==> |candidates| == job.limit)
    ensures problem.Some? ==> result.status == Q.SourceFailed && result.message == describe(problem.value)
    ensures problem.Some? && Early(problem.value) ==> sink.sent == [] && result.totals == row.totals
    ensures row.kind != Q.Telegram || job.trigger == Q.Manual ==> table.row == old(table.row)
    ensures var o := Outside(sink.replies, normalizes, web, describe, table.outcomes, channel.fails);
            var was := View(old(table.row), old(channel.history), old(table.calls), old(channel.requests));
            var becomes := View(table.row, channel.history, table.calls, channel.requests);
            if problem.Some? && Early(problem.value) then EarlyResult(job, row, result, problem.value, o, was, becomes)
            else Collected(job, row, candidates, o, was, becomes) &&
                 SentResult(job, row, result, problem, candidates, o, was, becomes)
  {
    hide ReadResult, CountFrom, Latest, ValidHistory, AllNormalize, FirstRejected, JobItems;
    t := EMPTY;
    ghost var o := Outside(sink.replies, normalizes, web, describe, table.outcomes, channel.fails);
    ghost var was := View(table.row, channel.history, table.calls, channel.requests);
    ghost var seen: seq<Entry>;
    var items: seq<Candidate>;
    if row.kind == Q.Telegram {
      problem, items, seen := CollectTelegram(job, table, channel, normalizes);
    } else {
      problem, items := CollectWebsite(row.sourceId, row.url, web);
    }
    candidates := items;
    ghost var middle := View(table.row, channel.history, table.calls, channel.requests);
    if problem.Some? {
      result := FailedRow(row, row.totals, describe(problem.value));
      assert row.kind == Q.Telegram && problem.value.NotNormalized? ==>
             RejectsIn(job, was.checkpoint, seen, normalizes, problem.value.id);
    } else {
      assert row.kind == Q.Telegram ==> ReadFor(job, was.checkpoint, seen, normalizes, candidates);
      result, problem, t := SendCandidates(job, row, items, table, sink, describe);
    }
  }

  // ----- What a processed source says -----

  /** What a source depends on besides the database and the channel, and what goes wrong with those. */
  datatype Outside = Outside(replies: nat -> Reply, normalizes: Entry -> bool, web: Web, describe: Problem -> string,
                             outcomes: nat -> Outcome, fails: nat -> bool)

  /** The checkpoint and the history of a channel at one instant, and how often both have been asked for. */
  datatype View = View(checkpoint: Checkpoint, history: seq<Entry>, calls: nat, requests: nat)

  /** The checkpoint, if the job needs it, was read. */
  predicate CheckpointRead(job: Job, o: Outside, was: View) {
    job.trigger == Q.Manual || o.outcomes(was.calls) == Served
  }

  ghost predicate RequestFailed(o: Outside, was: View, becomes: View) {
    exists r :: was.requests <= r < becomes.requests && o.fails(r)
  }

  /** The candidates of an accepted read of history h from checkpoint c. */
  ghost predicate ReadFor(job: Job, c: Checkpoint, h: seq<Entry>, normalizes: Entry -> bool, candidates: seq<Candidate>)
  {
    && ValidHistory(h) && HasRange(job)
    && candidates == CandidatesOf(JobItems(job, c, h)) && AllNormalize(JobItems(job, c, h), normalizes)
  }

  /** A read of history h from checkpoint c whose first rejected message is this one. */
  ghost predicate RejectsIn(job: Job, c: Checkpoint, h: seq<Entry>, normalizes: Entry -> bool, id: int) {
    ValidHistory(h) && HasRange(job) && FirstRejected(JobItems(job, c, h), normalizes, id)
  }

  /** Why collecting from a channel fails. */
  ghost predicate ChannelCause(p: Problem, job: Job, o: Outside, was: View, becomes: View) {
    match p
    case NoRange => !HasRange(job)
    case CheckpointUnreadable => HasRange(job) && !CheckpointRead(job, o, was)
    case ReadFailed => HasRange(job) && CheckpointRead(job, o, was) && RequestFailed(o, was, becomes)
    case NotNormalized(id) =>
      && HasRange(job) && CheckpointRead(job, o, was) && !RequestFailed(o, was, becomes)
      && exists h: seq<Entry> ::
           was.history <= h <= becomes.history && RejectsIn(job, was.checkpoint, h, o.normalizes, id)
    case _ => false
  }

  /** Why reading a page fails. */
  predicate PageCause(p: Problem, row: Q.SourceRow, web: Web) {
    match p
    case ReadFailed => web.read(row.sourceId, row.url).None?
    case PageRejected => web.read(row.sourceId, row.url).Some? && !PageAccepted(row, web)
    case _ => false
  }

  /** A failure before anything was sent, with its cause; counters and checkpoint are kept. */
  ghost predicate EarlyResult(job: Job, row: Q.SourceRow, result: Q.SourceRow, p: Problem, o: Outside, was: View,
                              becomes: View)
  {
    && result == FailedRow(row, row.totals, o.describe(p)) && becomes.checkpoint == was.checkpoint
    && match row.kind
       case Telegram => ChannelCause(p, job, o, was, becomes)
       case Website => PageCause(p, row, o.web)
  }

  /**
   The candidates of a source whose channel went from one view to another, when nothing failed: those of a history in
   between, read from the checkpoint of the first; or the one candidate of a page.
   */
  ghost predicate Collected(job: Job, row: Q.SourceRow, candidates: seq<Candidate>, o: Outside, was: View,
                            becomes: View)
  {
    match row.kind
    case Telegram =>
      && HasRange(job) && CheckpointRead(job, o, was) && !RequestFailed(o, was, becomes)
      && exists h: seq<Entry> ::
           was.history <= h <= becomes.history && ReadFor(job, was.checkpoint, h, o.normalizes, candidates)
    case Website => candidates == [PageCandidate(row.url)] && PageAccepted(row, o.web)
  }

  /** The statement that writes the checkpoint comes after the one that reads it. */
  function WriteOutcome(job: Job, row: Q.SourceRow, o: Outside, was: View): Outcome {
    o.outcomes(was.calls + if row.kind == Q.Telegram then Lookups(job) else 0)
  }

  /** Why sending fails. */
  predicate SendingCause(p: Problem, job: Job, row: Q.SourceRow, candidates: seq<Candidate>, t: Tally, o: Outside,
                         was: View)
  {
    match p
    case NotImported(failure) => t.failure == failure != NoFailure
    case NothingAccepted => t.failure == NoFailure && candidates != [] && t.successful == []
    case CheckpointUnwritable => Writes(job, row, candidates, t) && WriteOutcome(job, row, o, was) != Served
    case _ => false
  }

  /** The row and the checkpoint of a source whose candidates were sent: delivered, or failed with its cause. */
  ghost predicate SentResult(job: Job, row: Q.SourceRow, result: Q.SourceRow, problem: Option<Problem>,
                             candidates: seq<Candidate>, o: Outside, was: View, becomes: View)
  {
    var t := CountFrom(EMPTY, candidates, 0, 0, o.replies);
    && (match problem
        case None => DeliveredWith(job, row, result, candidates, o, was)
        case Some(p) =>
          && SendingCause(p, job, row, candidates, t, o, was)
          && result == FailedRow(row, TotalsOf(candidates, t), o.describe(p)))
    && becomes.checkpoint == if Writes(job, row, candidates, t) && WriteOutcome(job, row, o, was) != Refused
                             then Upsert(was.checkpoint, Latest(t.successful)) else was.checkpoint
  }

  ghost predicate DeliveredWith(job: Job, row: Q.SourceRow, result: Q.SourceRow, candidates: seq<Candidate>, o: Outside,
                                was: View)
  {
    var t := CountFrom(EMPTY, candidates, 0, 0, o.replies);
    && Accepted(candidates, t) && result == SucceededRow(row, job, candidates, t)
    && (Writes(job, row, candidates, t) ==> WriteOutcome(job, row, o, was) == Served)
  }

  /** What processSource may make of the row it is given. */
  ghost predicate ResultOf(job: Job, row: Q.SourceRow, result: Q.SourceRow, o: Outside, was: View, becomes: View) {
    || (exists p: Problem :: Early(p) && EarlyResult(job, row, result, p, o, was, becomes))
    || (exists candidates: seq<Candidate>, problem: Option<Problem> ::
          && Collected(job, row, candidates, o, was, becomes)
          && SentResult(job, row, result, problem, candidates, o, was, becomes))
  }

  /** What processSource ensures is a result. */
  lemma ProcessedIsResult(job: Job, row: Q.SourceRow, result: Q.SourceRow, problem: Option<Problem>,
                          candidates: seq<Candidate>, o: Outside, was: View, becomes: View)
    requires if problem.Some? && Early(problem.value) then EarlyResult(job, row, result, problem.value, o, was, becomes)
             else Collected(job, row, candidates, o, was, becomes) &&
                  SentResult(job, row, result, problem, candidates, o, was, becomes)
    ensures ResultOf(job, row, result, o, was, becomes)
  {
    hide EarlyResult, Collected, SentResult, Early;
  }

  /** For a page the second view makes no difference, as far as the checkpoint stays. */
  lemma PageResult(job: Job, row: Q.SourceRow, result: Q.SourceRow, problem: Option<Problem>,
                   candidates: seq<Candidate>, o: Outside, was: View, becomes: View)
    requires row.kind == Q.Website
    requires if problem.Some? && Early(problem.value) then EarlyResult(job, row, result, problem.value, o, was, becomes)
             else Collected(job, row, candidates, o, was, becomes) &&
                  SentResult(job, row, result, problem, candidates, o, was, becomes)
    ensures ResultOf(job, row, result, o, was, was)
  {
    hide SucceededRow, CountFrom, Latest, SendingCause, PageCause, Early, DeliveredWith;
    if problem.Some? && Early(problem.value) {
      assert EarlyResult(job, row, result, problem.value, o, was, was);
    } else {
      assert Collected(job, row, candidates, o, was, was);
      assert SentResult(job, row, result, problem, candidates, o, was, was);
    }
  }

  /** A result keeps the identity of the source and is an outcome; a delivered one has candidates that were accepted. */
  lemma ResultMeaning(job: Job, row: Q.SourceRow, result: Q.SourceRow, o: Outside, was: View, becomes: View)
    requires ResultOf(job, row, result, o, was, becomes)
    ensures result.status == Q.SourceFailed || Q.Delivered(result.status)
    ensures Q.SameSource(result, row)
    ensures Q.Delivered(result.status) ==>
            exists candidates: seq<Candidate> ::
              Collected(job, row, candidates, o, was, becomes) && DeliveredWith(job, row, result, candidates, o, was)
  {
    hide Accepted, CountFrom, ReadFor, Early, Collected, Latest, ChannelCause, PageCause, SendingCause, Writes;
    if Q.Delivered(result.status) {
      var candidates: seq<Candidate>, problem: Option<Problem> :|
        Collected(job, row, candidates, o, was, becomes) &&
        SentResult(job, row, result, problem, candidates, o, was, becomes);
    }
  }

  /** Whatever is delivered was settled: some answer says imported, duplicate or invalid of every candidate. */
  lemma DeliveredIsSettled(job: Job, row: Q.SourceRow, result: Q.SourceRow, candidates: seq<Candidate>, o: Outside,
                           was: View, i: nat)
    requires DeliveredWith(job, row, result, candidates, o, was) && i < |candidates|
    ensures exists k :: Settled(candidates[i], o.replies(k))
  {
    hide SucceededRow, Writes, WriteOutcome;
    SuccessSettlesEveryCandidate(EMPTY, candidates, 0, 0, o.replies, i);
  }

  /** These totals count the candidates, and the items with each status. */
  predicate CountedTotals(totals: Q.Totals, candidates: seq<Candidate>, items: seq<Answer>) {
    && totals.collected == |candidates|
    && totals.imported == Bearing(items, Imported)
    && totals.duplicates == Bearing(items, Duplicate)
    && totals.invalid == Bearing(items, Invalid)
  }

  /**
   The counters in the row of a source whose candidates were sent, delivered or not: the candidates, and the items that
   the tasks service answered with each status, before the first failing one if there is one. Of a delivered source
   these are the items of the replies to all batches.
   */
  lemma StoredCounts(job: Job, row: Q.SourceRow, result: Q.SourceRow, problem: Option<Problem>,
                     candidates: seq<Candidate>, o: Outside, was: View, becomes: View) returns (n: nat, f: nat)
    requires SentResult(job, row, result, problem, candidates, o, was, becomes)
    ensures f <= |Received(o.replies, n)| && CountedTotals(result.totals, candidates, Received(o.replies, n)[..f])
    ensures Ended(CountFrom(EMPTY, candidates, 0, 0, o.replies), candidates, o.replies, n, f)
    ensures problem.None? || !problem.value.NotImported? ==>
            n * BATCH_SIZE >= |candidates| && f == |Received(o.replies, n)|
  {
    hide CountFrom, Latest, AnsweredInFull, FailsAt, Bearing;
    NoBatches(candidates, o.replies);
    n, f := TallyMeaning(EMPTY, candidates, 0, o.replies);
  }

  /** Some reply of the tasks service settles the entry. */
  ghost predicate SettledBySome(e: Entry, replies: nat -> Reply) {
    exists k :: Settled(CandidateOf(e), replies(k))
  }

  /** Every item of a delivered Telegram source was settled by the tasks service. */
  lemma DeliveredItemsSettled(job: Job, c: Checkpoint, h: seq<Entry>, replies: nat -> Reply, e: Entry)
    requires job.from.Some? && job.to.Some? && e in JobItems(job, c, h)
    requires CountFrom(EMPTY, CandidatesOf(JobItems(job, c, h)), 0, 0, replies).failure == NoFailure
    ensures SettledBySome(e, replies)
  {
    var items := JobItems(job, c, h);
    var i :| 0 <= i < |items| && items[i] == e;
    SuccessSettlesEveryCandidate(EMPTY, CandidatesOf(items), 0, 0, replies, i);
  }

  /** The text messages of the publication range of the job above its checkpoint, in whole seconds. */
  function JobRange(job: Job, c: Checkpoint, h: seq<Entry>): seq<Entry>
    requires job.from.Some? && job.to.Some?
  {
    var start := StartCheckpoint(job, c);
    EligibleEntries(h, RunFrom(start, job.from.value), FloorSecond(job.to.value), RunAfter(start))
  }

  /**
   What the recorded status means, provided no message of the range lies below PAGE_LIMIT service entries: a succeeded
   source has handed on the whole range and every message of it is settled; a truncated one has handed on the oldest
   `limit` of at least as many, all settled.
   */
  lemma StatusMeaning(job: Job, c: Checkpoint, h: seq<Entry>, row: Q.SourceRow, replies: nat -> Reply)
    requires ValidHistory(h) && job.from.Some? && job.to.Some?
    requires var start := StartCheckpoint(job, c);
             !Hidden(h, RunFrom(start, job.from.value), job.to.value, RunAfter(start))
    requires var candidates := CandidatesOf(JobItems(job, c, h));
             Accepted(candidates, CountFrom(EMPTY, candidates, 0, 0, replies))
    ensures var candidates := CandidatesOf(JobItems(job, c, h));
            var result, range :=
                SucceededRow(row, job, candidates, CountFrom(EMPTY, candidates, 0, 0, replies)), JobRange(job, c, h);
            && JobItems(job, c, h) == Take(range, job.limit)
            && (result.status == Q.SourceTruncated <==> |range| >= job.limit)
            && (result.status == Q.SourceSucceeded ==> forall e :: e in range ==> SettledBySome(e, replies))
            && forall e :: e in JobItems(job, c, h) ==> SettledBySome(e, replies)
  {
    hide EligibleEntries, Filter, ReadResult, Hidden, CandidatesOf, CountFrom, ValidHistory, SettledBySome;
    var start := StartCheckpoint(job, c);
    ReadWholeSeconds(h, RunFrom(start, job.from.value), job.to.value, RunAfter(start), job.limit);
    forall e | e in JobItems(job, c, h) ensures SettledBySome(e, replies) {
      DeliveredItemsSettled(job, c, h, replies, e);
    }
  }
}
