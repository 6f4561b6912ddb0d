/** Sending candidates to the tasks service in batches, and accounting for its answers. */
module BatchImport {
  import opened Instants
  import S = Sequences

  const BATCH_SIZE: int := 100

  /** external_id: "channel:message" for Telegram, the canonical URL for a website. */
  datatype ExternalId = OfMessage(channel: string, id: int) | OfUrl(url: string)

  datatype Candidate = Candidate(externalId: ExternalId, messageId: int, publishedAt: Instant)

  datatype Status = Imported | Duplicate | Invalid | Error | Unsupported

  /** One item of a batch answer. */
  datatype Answer = Answer(externalId: ExternalId, status: Status)

  datatype Reply = Failed | Answers(items: seq<Answer>)

  datatype Failure = NoFailure | SinkFailed | UnknownExternalId | NotPersisted | UnsupportedStatus | IncompleteBatch

  /** What importCandidates returns. */
  datatype Tally = Tally(imported: nat, duplicates: nat, invalid: nat, successful: seq<Candidate>, failure: Failure)

  const EMPTY: Tally := Tally(0, 0, 0, [], NoFailure)

  /** byExternalID: the last candidate with each external ID. */
  function ByExternalId(candidates: seq<Candidate>): (m: map<ExternalId, Candidate>)
    ensures forall k :: k in m <==> exists c :: c in candidates && c.externalId == k
    ensures forall k :: k in m ==> m[k] in candidates && m[k].externalId == k
  {
    if candidates == [] then map[]
    else
      var last := candidates[|candidates| - 1];
      assert candidates == candidates[..|candidates| - 1] + [last];
      ByExternalId(candidates[..|candidates| - 1])[last.externalId := last]
  }

  /** Accounting for one answer. */
  function Count(t: Tally, a: Answer, known: map<ExternalId, Candidate>): Tally {
    if a.externalId !in known then t.(failure := UnknownExternalId)
    else
      match a.status
      case Imported => t.(imported := t.imported + 1, successful := t.successful + [known[a.externalId]])
      case Duplicate => t.(duplicates := t.duplicates + 1, successful := t.successful + [known[a.externalId]])
      case Invalid => t.(invalid := t.invalid + 1)
      case Error => t.(failure := NotPersisted)
      case Unsupported => t.(failure := UnsupportedStatus)
  }

  /** Accounting for a list of answers, up to the first that fails. */
  function CountAll(t: Tally, answers: seq<Answer>, known: map<ExternalId, Candidate>): Tally
    decreases |answers|
  {
    if answers == [] || t.failure != NoFailure then t
    else CountAll(Count(t, answers[0], known), answers[1..], known)
  }

  predicate Mentions(answers: seq<Answer>, key: ExternalId) {
    exists a :: a in answers && a.externalId == key
  }

  predicate Complete(batch: seq<Candidate>, answers: seq<Answer>) {
    forall c :: c in batch ==> Mentions(answers, c.externalId)
  }

  /** One batch: the reply is counted, then every candidate of the batch must have been mentioned. */
  function CountBatch(t: Tally, batch: seq<Candidate>, reply: Reply, known: map<ExternalId, Candidate>): Tally {
    match reply
    case Failed => t.(failure := SinkFailed)
    case Answers(answers) =>
      var counted := CountAll(t, answers, known);
      if counted.failure == NoFailure && !Complete(batch, answers) then counted.(failure := IncompleteBatch)
      else counted
  }

  function BatchEnd(candidates: seq<Candidate>, start: nat): nat {
    if start + BATCH_SIZE <= |candidates| then start + BATCH_SIZE else |candidates|
  }

  /** All batches from `start` on; the k-th call to the sink is answered by replies(k). */
  function CountFrom(t: Tally, candidates: seq<Candidate>, start: nat, k: nat, replies: nat -> Reply): Tally
    decreases |candidates| - start
  {
    if start >= |candidates| || t.failure != NoFailure then t
    else
      var end := BatchEnd(candidates, start);
      var next := CountBatch(t, candidates[start..end], replies(k), ByExternalId(candidates));
      CountFrom(next, candidates, end, k + 1, replies)
  }

  // ----- The tasks service as the worker sees it -----

  class Sink {
    const replies: nat -> Reply
    var sent: seq<seq<Candidate>>

    constructor (replies: nat -> Reply)
      ensures this.replies == replies && sent == []
    {
      this.replies := replies;
      sent := [];
    }

    /** Sends nothing for an empty batch or for more than 100 candidates; otherwise records the batch and answers. */
    method Import(batch: seq<Candidate>) returns (reply: Reply)
      modifies this
      ensures batch == [] ==> reply == Answers([]) && sent == old(sent)
      ensures |batch| > BATCH_SIZE ==> reply == Failed && sent == old(sent)
      ensures 0 < |batch| <= BATCH_SIZE ==> reply == replies(old(|sent|)) && sent == old(sent) + [batch]
    {
      if |batch| == 0 {
        return Answers([]);
      }
      if |batch| > BATCH_SIZE {
        return Failed;
      }
      reply := replies(|sent|);
      sent := sent + [batch];
    }
  }

  function Flatten(batches: seq<seq<Candidate>>): seq<Candidate> {
    if batches == [] then [] else Flatten(batches[..|batches| - 1]) + batches[|batches| - 1]
  }

  /** Batch k starts at candidate 100 k, unless there are fewer. */
  function StartOf(candidates: seq<Candidate>, k: nat): (start: nat)
    ensures start <= |candidates| && (start == |candidates| <==> k * BATCH_SIZE >= |candidates|)
  {
    if k * BATCH_SIZE <= |candidates| then k * BATCH_SIZE else |candidates|
  }

  function BatchAt(candidates: seq<Candidate>, k: nat): (batch: seq<Candidate>)
    ensures |batch| <= BATCH_SIZE
  {
    candidates[StartOf(candidates, k)..StartOf(candidates, k + 1)]
  }

  /** The batches sent so far are those of the candidates before `start`, each full except the last of all. */
  ghost predicate InBatches(sent: seq<seq<Candidate>>, candidates: seq<Candidate>, start: nat) {
    && start == StartOf(candidates, |sent|) && Flatten(sent) == candidates[..start]
    && forall k :: 0 <= k < |sent| ==> sent[k] == BatchAt(candidates, k) != []
  }

  lemma BatchBounds(candidates: seq<Candidate>, k: nat)
    requires StartOf(candidates, k) < |candidates|
    ensures StartOf(candidates, k) == k * BATCH_SIZE
    ensures BatchEnd(candidates, k * BATCH_SIZE) == StartOf(candidates, k + 1) > k * BATCH_SIZE
  {
  }

  lemma NextInBatches(sent: seq<seq<Candidate>>, candidates: seq<Candidate>, start: nat)
    requires InBatches(sent, candidates, start) && start < |candidates|
    ensures var end := BatchEnd(candidates, start);
            && start < end <= |candidates| && candidates[start..end] == BatchAt(candidates, |sent|)
            && InBatches(sent + [candidates[start..end]], candidates, end)
  {
    BatchBounds(candidates, |sent|);
    var end := BatchEnd(candidates, start);
    var batch := candidates[start..end];
    assert (sent + [batch])[..|sent|] == sent;
    assert candidates[..end] == candidates[..start] + batch;
  }

  lemma SentIsPrefix(sent: seq<seq<Candidate>>, candidates: seq<Candidate>, start: nat)
    requires InBatches(sent, candidates, start)
    ensures Flatten(sent) <= candidates && (start == |candidates| ==> Flatten(sent) == candidates)
    ensures start == StartOf(candidates, |sent|)
    ensures forall k :: 0 <= k < |sent| ==> sent[k] == BatchAt(candidates, k) != []
  {
  }

  /** The loop that fills byExternalID. */
  method IndexCandidates(candidates: seq<Candidate>) returns (known: map<ExternalId, Candidate>)
    ensures known == ByExternalId(candidates)
  {
    known := map[];
    for i := 0 to |candidates|
      invariant known == ByExternalId(candidates[..i])
    {
      assert candidates[..i + 1][..i] == candidates[..i];
      known := known[candidates[i].externalId := candidates[i]];
    }
    assert candidates[..|candidates|] == candidates;
  }

  /** importCandidates */
  method ImportCandidates(sink: Sink, candidates: seq<Candidate>) returns (t: Tally)
    requires sink.sent == []
    modifies sink
    ensures t == CountFrom(EMPTY, candidates, 0, 0, sink.replies)
    ensures forall k :: 0 <= k < |sink.sent| ==> sink.sent[k] == BatchAt(candidates, k) != []
    ensures Flatten(sink.sent) <= candidates
    ensures t.failure == NoFailure ==> Flatten(sink.sent) == candidates
    ensures exists f: nat :: Ended(t, candidates, sink.replies, |sink.sent|, f)
  {
    hide CountAll, Count, Complete, ByExternalId, InBatches, Flatten, BatchAt, Counted, Ended;
    t := EMPTY;
    var known := IndexCandidates(candidates);
    var start: nat := 0;
    NoBatches(candidates, sink.replies);
    while start < |candidates|
      invariant start <= |candidates| && t.failure == NoFailure
      invariant CountFrom(EMPTY, candidates, 0, 0, sink.replies)
                == CountFrom(t, candidates, start, |sink.sent|, sink.replies)
      invariant InBatches(sink.sent, candidates, start)
      invariant Counted(t, candidates, sink.replies, |sink.sent|)
    {
      var end := BatchEnd(candidates, start);
      NextInBatches(sink.sent, candidates, start);
      var batch := candidates[start..end];
      ghost var f := BatchMeaning(t, candidates, sink.replies, |sink.sent|);
      var reply := sink.Import(batch);
      SentIsPrefix(sink.sent, candidates, end);
      if reply == Failed {
        t := t.(failure := SinkFailed);
        return;
      }
      t := CountAnswers(t, reply.items, known);
      if t.failure != NoFailure {
        return;
      }
      if !Complete(batch, reply.items) {
        t := t.(failure := IncompleteBatch);
        return;
      }
      start := end;
    }
    SentIsPrefix(sink.sent, candidates, start);
    ghost var f := AllBatchesMeaning(t, candidates, sink.replies, |sink.sent|);
  }

  lemma NoBatches(candidates: seq<Candidate>, replies: nat -> Reply)
    ensures InBatches([], candidates, 0) && Counted(EMPTY, candidates, replies, 0)
  {
  }

  /** The loop over one reply. */
  method CountAnswers(before: Tally, answers: seq<Answer>, known: map<ExternalId, Candidate>) returns (t: Tally)
    requires before.failure == NoFailure
    ensures t == CountAll(before, answers, known)
  {
    t := before;
    for i := 0 to |answers|
      invariant t.failure == NoFailure
      invariant CountAll(before, answers, known) == CountAll(t, answers[i..], known)
    {
      assert answers[i..][1..] == answers[i + 1..];
      t := Count(t, answers[i], known);
      if t.failure != NoFailure {
        return;
      }
    }
  }

  // ----- What the counters count -----

  function StatusOf(a: Answer): Status {
    a.status
  }

  /** How many of the items bear this status. */
  function Bearing(items: seq<Answer>, status: Status): nat {
    multiset(S.Map(items, StatusOf))[status]
  }

  predicate Accepts(a: Answer) {
    a.status == Imported || a.status == Duplicate
  }

  predicate Settles(a: Answer) {
    a.status == Imported || a.status == Duplicate || a.status == Invalid
  }

  /** c is the last candidate with its external ID. */
  ghost predicate LastWithKey(c: Candidate, candidates: seq<Candidate>) {
    exists j :: 0 <= j < |candidates| && candidates[j] == c &&
                forall k :: j < k < |candidates| ==> candidates[k].externalId != c.externalId
  }

  /** Some candidate has this external ID. */
  predicate Among(key: ExternalId, candidates: seq<Candidate>) {
    exists c :: c in candidates && c.externalId == key
  }

  function KeyOf(c: Candidate): ExternalId {
    c.externalId
  }

  function AnsweredKey(a: Answer): ExternalId {
    a.externalId
  }

  /** The items of the first k replies, in order. */
  function Received(replies: nat -> Reply, k: nat): seq<Answer> {
    if k == 0 then []
    else
      Received(replies, k - 1) +
      match replies(k - 1)
      case Failed => []
      case Answers(items) => items
  }

  /**
   Each counter is the number of items with its status; the accepted candidates are those that the imported and
   duplicate items name, in the order of these, of several with one external ID the last; and no item is of another
   kind or names no candidate.
   */
  ghost predicate Counts(t: Tally, items: seq<Answer>, candidates: seq<Candidate>) {
    && t.imported == Bearing(items, Imported)
    && t.duplicates == Bearing(items, Duplicate)
    && t.invalid == Bearing(items, Invalid)
    && S.Map(t.successful, KeyOf) == S.Map(S.Filter(items, Accepts), AnsweredKey)
    && (forall c :: c in t.successful ==> LastWithKey(c, candidates))
    && forall a :: a in items ==> Settles(a) && Among(a.externalId, candidates)
  }

  /** Why one item makes the import fail. */
  predicate FailsAt(failure: Failure, a: Answer, candidates: seq<Candidate>) {
    match failure
    case UnknownExternalId => !Among(a.externalId, candidates)
    case NotPersisted => Among(a.externalId, candidates) && a.status == Error
    case UnsupportedStatus => Among(a.externalId, candidates) && a.status == Unsupported
    case _ => false
  }

  /** The reply to batch j was read to its end and mentions every candidate of the batch. */
  ghost predicate AnsweredInFull(candidates: seq<Candidate>, replies: nat -> Reply, j: nat) {
    replies(j).Answers? && Complete(BatchAt(candidates, j), replies(j).items)
  }

  /** After k batches without a failure. */
  ghost predicate Counted(t: Tally, candidates: seq<Candidate>, replies: nat -> Reply, k: nat) {
    && t.failure == NoFailure && Counts(t, Received(replies, k), candidates)
    && forall j: nat :: j < k ==> AnsweredInFull(candidates, replies, j)
  }

  /**
   The end of an import that sent n batches and counted the first f items of the replies. Without a failure these are
   all batches and all items. With one, it lies in the last reply, and everything before it was counted.
   */
  ghost predicate Ended(t: Tally, candidates: seq<Candidate>, replies: nat -> Reply, n: nat, f: nat) {
    var items := Received(replies, n);
    && f <= |items| && Counts(t, items[..f], candidates)
    && (forall j: nat :: j + 1 < n ==> AnsweredInFull(candidates, replies, j))
    && match t.failure
       case NoFailure =>
         && n * BATCH_SIZE >= |candidates| && f == |items|
         && (forall j: nat :: j < n ==> AnsweredInFull(candidates, replies, j))
       case SinkFailed => 0 < n && replies(n - 1).Failed? && f == |items|
       case IncompleteBatch =>
         && 0 < n && replies(n - 1).Answers? && f == |items|
         && !Complete(BatchAt(candidates, n - 1), replies(n - 1).items)
       case _ => 0 < n && |Received(replies, n - 1)| <= f < |items| && FailsAt(t.failure, items[f], candidates)
  }

  lemma BearingOneMore(items: seq<Answer>, a: Answer, status: Status)
    ensures Bearing(items + [a], status) == Bearing(items, status) + if a.status == status then 1 else 0
  {
    assert S.Map(items + [a], StatusOf) == S.Map(items, StatusOf) + [a.status];
  }

  lemma AcceptedOneMore(items: seq<Answer>, a: Answer, successful: seq<Candidate>, c: Candidate)
    requires S.Map(successful, KeyOf) == S.Map(S.Filter(items, Accepts), AnsweredKey)
    ensures !Accepts(a) ==> S.Filter(items + [a], Accepts) == S.Filter(items, Accepts)
    ensures Accepts(a) && c.externalId == a.externalId ==>
            S.Map(successful + [c], KeyOf) == S.Map(S.Filter(items + [a], Accepts), AnsweredKey)
  {
    hide S.Filter;
    var accepted, after := S.Filter(items, Accepts), S.Filter(items + [a], Accepts);
    S.FilterConcat(items, [a], Accepts);
    if Accepts(a) {
      S.FilterAll([a], Accepts);
      assert after == accepted + [a];
      assert S.Map(accepted + [a], AnsweredKey) == S.Map(accepted, AnsweredKey) + [a.externalId];
      assert S.Map(successful + [c], KeyOf) == S.Map(successful, KeyOf) + [c.externalId];
    } else {
      S.FilterNone([a], Accepts);
      assert after == accepted + [];
    }
  }

  lemma CountsOneMore(t: Tally, items: seq<Answer>, a: Answer, candidates: seq<Candidate>)
    requires Counts(t, items, candidates) && Settles(a) && Among(a.externalId, candidates)
    ensures Counts(Count(t, a, ByExternalId(candidates)), items + [a], candidates)
  {
    hide S.Filter, Bearing, Among, S.Map, LastWithKey;
    var known := ByExternalId(candidates);
    BearingOneMore(items, a, Imported);
    BearingOneMore(items, a, Duplicate);
    BearingOneMore(items, a, Invalid);
    InIndex(a.externalId, candidates);
    AcceptedOneMore(items, a, t.successful, known[a.externalId]);
  }

  lemma InIndex(key: ExternalId, candidates: seq<Candidate>)
    ensures var known := ByExternalId(candidates);
            && (key in known <==> Among(key, candidates))
            && (key in known ==> known[key].externalId == key && LastWithKey(known[key], candidates))
  {
    if key in ByExternalId(candidates) {
      IndexKeepsLast(key, candidates);
    }
  }

  lemma LastSnoc(c: Candidate, init: seq<Candidate>, last: Candidate)
    ensures LastWithKey(last, init + [last])
    ensures LastWithKey(c, init) && last.externalId != c.externalId ==> LastWithKey(c, init + [last])
  {
    var s := init + [last];
    assert s[|init|] == last;
    if LastWithKey(c, init) && last.externalId != c.externalId {
      var j :| 0 <= j < |init| && init[j] == c && forall k :: j < k < |init| ==> init[k].externalId != c.externalId;
      assert s[j] == c;
    }
  }

  lemma {:induction false} IndexKeepsLast(key: ExternalId, candidates: seq<Candidate>)
    requires key in ByExternalId(candidates)
    ensures LastWithKey(ByExternalId(candidates)[key], candidates)
  {
    hide LastWithKey;
    var init, last := candidates[..|candidates| - 1], candidates[|candidates| - 1];
    assert candidates == init + [last];
    if last.externalId != key {
      IndexKeepsLast(key, init);
    }
    LastSnoc(ByExternalId(candidates)[key], init, last);
  }

  /** One item is counted, or makes the import fail and nothing else. */
  lemma CountOrFail(t: Tally, a: Answer, candidates: seq<Candidate>)
    requires t.failure == NoFailure
    ensures var u := Count(t, a, ByExternalId(candidates));
            if Settles(a) && Among(a.externalId, candidates) then u.failure == NoFailure
            else u.failure != NoFailure && u == t.(failure := u.failure) && FailsAt(u.failure, a, candidates)
  {
    InIndex(a.externalId, candidates);
  }

  /** One reply: everything before the first failing item is counted. */
  lemma {:induction false} CountAllMeaning(t: Tally, items: seq<Answer>, answers: seq<Answer>,
                                           candidates: seq<Candidate>) returns (f: nat)
    requires t.failure == NoFailure && Counts(t, items, candidates)
    ensures var u := CountAll(t, answers, ByExternalId(candidates));
            && f <= |answers| && Counts(u, items + answers[..f], candidates)
            && (u.failure == NoFailure ==> f == |answers|)
            && (u.failure != NoFailure ==> f < |answers| && FailsAt(u.failure, answers[f], candidates))
    decreases |answers|
  {
    hide Counts, Count, Settles, Among, FailsAt, ByExternalId;
    f := 0;
    assert items + answers[..0] == items;
    if answers != [] {
      var a := answers[0];
      var next := Count(t, a, ByExternalId(candidates));
      CountOrFail(t, a, candidates);
      if next.failure == NoFailure {
        CountsOneMore(t, items, a, candidates);
        var rest := CountAllMeaning(next, items + [a], answers[1..], candidates);
        f := rest + 1;
        assert items + answers[..f] == items + [a] + answers[1..][..rest];
      } else {
        FailedCounts(t, next.failure, items, candidates);
      }
    }
  }

  lemma FailedCounts(t: Tally, failure: Failure, items: seq<Answer>, candidates: seq<Candidate>)
    requires Counts(t, items, candidates)
    ensures Counts(t.(failure := failure), items, candidates)
  {
  }

  /** One batch: either it was counted in full, or the import ends with it. */
  lemma BatchMeaning(t: Tally, candidates: seq<Candidate>, replies: nat -> Reply, k: nat) returns (f: nat)
    requires Counted(t, candidates, replies, k)
    ensures var u := CountBatch(t, BatchAt(candidates, k), replies(k), ByExternalId(candidates));
            if u.failure == NoFailure then Counted(u, candidates, replies, k + 1)
            else Ended(u, candidates, replies, k + 1, f)
  {
    hide Counts, CountAll, Complete, BatchAt, Among;
    var items := Received(replies, k);
    f := |items|;
    if replies(k).Failed? {
      FailedCounts(t, SinkFailed, items, candidates);
      assert Received(replies, k + 1) == items + [];
      assert (items + [])[..f] == items;
    } else {
      var answers := replies(k).items;
      var more := CountAllMeaning(t, items, answers, candidates);
      f := f + more;
      assert Received(replies, k + 1) == items + answers;
      assert (items + answers)[..f] == items + answers[..more];
      assert answers[..|answers|] == answers;
      FailedCounts(CountAll(t, answers, ByExternalId(candidates)), IncompleteBatch, items + answers[..more],
                   candidates);
    }
  }

  lemma AllBatchesMeaning(t: Tally, candidates: seq<Candidate>, replies: nat -> Reply, k: nat) returns (f: nat)
    requires Counted(t, candidates, replies, k) && k * BATCH_SIZE >= |candidates|
    ensures Ended(t, candidates, replies, k, f)
  {
    f := |Received(replies, k)|;
    assert Received(replies, k)[..f] == Received(replies, k);
  }

  /**
   On every return path the counters are the numbers of items received with each status, up to the one that fails, and
   the failure has its cause.
   */
  lemma {:induction false} TallyMeaning(t: Tally, candidates: seq<Candidate>, k: nat, replies: nat -> Reply)
    returns (n: nat, f: nat)
    requires Counted(t, candidates, replies, k)
    ensures Ended(CountFrom(t, candidates, StartOf(candidates, k), k, replies), candidates, replies, n, f)
    decreases |candidates| - StartOf(candidates, k)
  {
    hide Counts, AnsweredInFull, Ended, CountBatch;
    if StartOf(candidates, k) < |candidates| {
      BatchBounds(candidates, k);
      assert BatchAt(candidates, k) == candidates[k * BATCH_SIZE..BatchEnd(candidates, k * BATCH_SIZE)];
      var next := CountBatch(t, BatchAt(candidates, k), replies(k), ByExternalId(candidates));
      f := BatchMeaning(t, candidates, replies, k);
      n := k + 1;
      if next.failure == NoFailure {
        n, f := TallyMeaning(next, candidates, k + 1, replies);
      }
    } else {
      f := AllBatchesMeaning(t, candidates, replies, k);
      n := k;
    }
  }

  // ----- Accounting -----

  /** Every accepted candidate is counted once as imported or duplicate, and is one of the candidates. */
  ghost predicate Balanced(t: Tally, candidates: seq<Candidate>) {
    && |t.successful| == t.imported + t.duplicates
    && forall c :: c in t.successful ==> c in candidates
  }

  lemma {:induction false} CountAllBalanced(t: Tally, answers: seq<Answer>, candidates: seq<Candidate>)
    requires Balanced(t, candidates)
    ensures Balanced(CountAll(t, answers, ByExternalId(candidates)), candidates)
    decreases |answers|
  {
    if answers != [] && t.failure == NoFailure {
      CountAllBalanced(Count(t, answers[0], ByExternalId(candidates)), answers[1..], candidates);
    }
  }

  /** On every return path the accepted candidates are the imported and duplicate ones. */
  lemma {:induction false} AcceptedAreImportedOrDuplicate(t: Tally, candidates: seq<Candidate>, start: nat, k: nat,
                                                          replies: nat -> Reply)
    requires Balanced(t, candidates)
    ensures Balanced(CountFrom(t, candidates, start, k, replies), candidates)
    decreases |candidates| - start
  {
    if start < |candidates| && t.failure == NoFailure {
      var end := BatchEnd(candidates, start);
      if replies(k).Answers? {
        CountAllBalanced(t, replies(k).items, candidates);
      }
      var next := CountBatch(t, candidates[start..end], replies(k), ByExternalId(candidates));
      AcceptedAreImportedOrDuplicate(next, candidates, end, k + 1, replies);
    }
  }

  /** The reply to the candidate's own batch settles it. */
  ghost predicate Settled(c: Candidate, reply: Reply) {
    reply.Answers? && exists a :: a in reply.items && a.externalId == c.externalId && Settles(a)
  }

  lemma {:induction false} CountAllSettles(t: Tally, answers: seq<Answer>, known: map<ExternalId, Candidate>)
    requires t.failure == NoFailure && CountAll(t, answers, known).failure == NoFailure
    ensures forall a :: a in answers ==> Settles(a) && a.externalId in known
    decreases |answers|
  {
    if answers != [] {
      CountAllSettles(Count(t, answers[0], known), answers[1..], known);
      assert answers == [answers[0]] + answers[1..];
    }
  }

  lemma BatchSettles(t: Tally, batch: seq<Candidate>, reply: Reply, known: map<ExternalId, Candidate>)
    requires t.failure == NoFailure && CountBatch(t, batch, reply, known).failure == NoFailure
    ensures forall c :: c in batch ==> Settled(c, reply)
  {
    CountAllSettles(t, reply.items, known);
    forall c | c in batch ensures Settled(c, reply) {
      assert Mentions(reply.items, c.externalId);
    }
  }

  /** A failure is final. */
  lemma {:induction false} CountAllFailed(t: Tally, answers: seq<Answer>, known: map<ExternalId, Candidate>)
    requires CountAll(t, answers, known).failure == NoFailure
    ensures t.failure == NoFailure
    decreases |answers|
  {
  }

  /** On success every candidate was settled by the reply to the batch it was sent in. */
  lemma {:induction false} SuccessSettlesEveryCandidate(t: Tally, candidates: seq<Candidate>, start: nat, k: nat,
                                                        replies: nat -> Reply, i: nat)
    requires start <= i < |candidates| && t.failure == NoFailure && start % BATCH_SIZE == 0
    requires CountFrom(t, candidates, start, k, replies).failure == NoFailure
    ensures Settled(candidates[i], replies(k + (i - start) / BATCH_SIZE))
    decreases |candidates| - start
  {
    var end := BatchEnd(candidates, start);
    var next := CountBatch(t, candidates[start..end], replies(k), ByExternalId(candidates));
    FailureIsFinal(next, candidates, end, k + 1, replies);
    if i < end {
      BatchSettles(t, candidates[start..end], replies(k), ByExternalId(candidates));
      assert candidates[start..end][i - start] == candidates[i];
    } else {
      SuccessSettlesEveryCandidate(next, candidates, end, k + 1, replies, i);
      assert (i - start) / BATCH_SIZE == 1 + (i - end) / BATCH_SIZE;
    }
  }

  lemma FailureIsFinal(t: Tally, candidates: seq<Candidate>, start: nat, k: nat, replies: nat -> Reply)
    requires CountFrom(t, candidates, start, k, replies).failure == NoFailure
    ensures t.failure == NoFailure
  {
  }

  /** The sink answers each item of the batch exactly once. */
  ghost predicate AnswersOnce(batch: seq<Candidate>, reply: Reply) {
    reply.Answers? && multiset(S.Map(batch, KeyOf)) == multiset(S.Map(reply.items, AnsweredKey))
  }

  function Total(t: Tally): nat {
    t.imported + t.duplicates + t.invalid
  }

  lemma {:induction false} CountAllTotal(t: Tally, answers: seq<Answer>, known: map<ExternalId, Candidate>)
    requires CountAll(t, answers, known).failure == NoFailure
    ensures Total(CountAll(t, answers, known)) == Total(t) + |answers|
    decreases |answers|
  {
    if answers != [] {
      CountAllTotal(Count(t, answers[0], known), answers[1..], known);
    }
  }

  /** From the k-th batch on, which starts at `start`, the sink answers each item of each batch exactly once. */
  ghost predicate AnswersEachBatchOnce(candidates: seq<Candidate>, start: nat, k: nat, replies: nat -> Reply)
    decreases |candidates| - start
  {
    start >= |candidates| ||
    (var end := BatchEnd(candidates, start);
     AnswersOnce(candidates[start..end], replies(k)) && AnswersEachBatchOnce(candidates, end, k + 1, replies))
  }

  lemma BatchTotal(t: Tally, batch: seq<Candidate>, reply: Reply, known: map<ExternalId, Candidate>)
    requires AnswersOnce(batch, reply)
    requires CountBatch(t, batch, reply, known).failure == NoFailure
    ensures Total(CountBatch(t, batch, reply, known)) == Total(t) + |batch|
  {
    S.SameLength(S.Map(batch, KeyOf), S.Map(reply.items, AnsweredKey));
    CountAllTotal(t, reply.items, known);
  }

  /** On success with a sink that answers each item exactly once, the three counts add up to the candidates. */
  lemma {:induction false} CountsAddUp(t: Tally, candidates: seq<Candidate>, start: nat, k: nat, replies: nat -> Reply)
    requires start <= |candidates| && AnswersEachBatchOnce(candidates, start, k, replies)
    requires CountFrom(t, candidates, start, k, replies).failure == NoFailure
    ensures Total(CountFrom(t, candidates, start, k, replies)) == Total(t) + |candidates| - start
    decreases |candidates| - start
  {
    if start < |candidates| {
      FailureIsFinal(t, candidates, start, k, replies);
      var end, known := BatchEnd(candidates, start), ByExternalId(candidates);
      var next := CountBatch(t, candidates[start..end], replies(k), known);
      FailureIsFinal(next, candidates, end, k + 1, replies);
      BatchTotal(t, candidates[start..end], replies(k), known);
      CountsAddUp(next, candidates, end, k + 1, replies);
    }
  }
}
