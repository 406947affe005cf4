/**
 Posting a batch in pieces, and turning what came back into records and totals.
 */
module Delivery {
  import opened Common
  import opened Records
  import opened MockSpec
  import opened MockService
  import opened Pairing

  /** The body of a response. A live service may leave the counts out. */
  datatype Reply = Reply(accepted: Option<int>, rejected: Option<int>, events: seq<Verdict>)

  datatype Outcome = Outcome(
    reply: Option<Reply>,
    status: Status,
    posted: int,
    failed: int,
    attempts: nat,
    completedAt: Option<int>,
    error: Option<Complaint>,
    key: Option<string>)

  const NOTHING_SENT: Outcome := Outcome(None, Generated, 0, 0, 0, None, None, None)

  /** What lies outside: answers of a live service, minted keys, clocks, and whether the
      store still stands where it stood, each at the `i`-th request. */
  datatype World = World(
    live: nat -> Result<Reply, string>,
    minted: nat -> string,
    clock: nat -> int,
    wall: nat -> int,
    goOn: nat -> bool)

  datatype Chunk = Chunk(events: seq<Event>, outcome: Outcome)

  // ------------------------------------------------------------------ one request

  function FromMock(result: Result<Response, HttpError>): Result<Reply, string> {
    if result.Err? then Err("HTTP error")
    else Ok(Reply(Some(result.value.accepted), Some(result.value.rejected), result.value.events))
  }

  function Default(count: Option<int>, otherwise: int): int {
    if count.Some? then count.value else otherwise
  }

  /** An answer of another size than the request is a replayed one and counts as a failure. */
  function OutcomeOf(sent: nat, result: Result<Reply, string>, at: int, key: string): Outcome {
    if result.Err? then
      Outcome(None, Failed, 0, sent, 1, None, Some(Transport(result.error)), Some(key))
    else if |result.value.events| != sent then
      Outcome(Some(result.value), Failed, 0, sent, 1, Some(at), Some(Transport("replayed")), Some(key))
    else
      Outcome(Some(result.value), Posted, Default(result.value.accepted, sent), Default(result.value.rejected, 0),
              1, Some(at), None, Some(key))
  }

  function KeyUsed(key: Option<string>, w: World, i: nat): string {
    if key.Some? then key.value else w.minted(i)
  }

  function RequestOf(events: seq<Event>, key: string, friction: seq<string>, w: World, i: nat): Request {
    Request(events, Some(key), friction, true, w.clock(i), w.wall(i))
  }

  /** The service after the request, and its outcome. */
  function Deliver(cfg: Config, m: Service, mode: Mode, friction: seq<string>, events: seq<Event>,
                   key: Option<string>, w: World, i: nat): (Service, Outcome)
  {
    var used := KeyUsed(key, w, i);
    match mode
    case NoDelivery => (m, NOTHING_SENT)
    case Live => (m, OutcomeOf(|events|, w.live(i), w.clock(i), used))
    case Mock =>
      var (m', result) := Ingest(cfg, m, RequestOf(events, used, friction, w, i));
      (m', OutcomeOf(|events|, FromMock(result), w.clock(i), used))
  }

  method DeliverPayload(service: MockRegEngineService, mode: Mode, friction: seq<string>, events: seq<Event>,
                        key: Option<string>, w: World, i: nat) returns (outcome: Outcome)
    modifies service
    ensures (service.View(), outcome)
      == Deliver(service.cfg, old(service.View()), mode, friction, events, key, w, i)
  {
    hide Ingest;
    if mode.NoDelivery? {
      return NOTHING_SENT;
    }
    var used := if key.Some? then key.value else w.minted(i);
    var result;
    if mode.Mock? {
      var answer := service.Ingest(RequestOf(events, used, friction, w, i));
      result := FromMock(answer);
    } else {
      result := w.live(i);
    }
    outcome := OutcomeOf(|events|, result, w.clock(i), used);
  }

  // ------------------------------------------------------------------ in chunks

  function Upto(events: seq<Event>, start: nat, cap: nat): (stop: nat)
    requires start <= |events|
    ensures start <= stop <= |events| && stop <= start + cap
    ensures stop < |events| ==> stop == start + cap
  {
    if start + cap <= |events| then start + cap else |events|
  }

  /** The service after the remaining requests, and their chunks. */
  function Sending(cfg: Config, m: Service, mode: Mode, friction: seq<string>, events: seq<Event>, cap: nat,
                     w: World, start: nat, i: nat): (Service, seq<Chunk>)
    requires 1 <= cap && start <= |events|
    decreases |events| - start
  {
    if start == |events| || !w.goOn(i) then (m, [])
    else
      var stop := Upto(events, start, cap);
      var (m', outcome) := Deliver(cfg, m, mode, friction, events[start..stop], None, w, i);
      var (m'', rest) := Sending(cfg, m', mode, friction, events, cap, w, stop, i + 1);
      (m'', [Chunk(events[start..stop], outcome)] + rest)
  }

  method DeliverInChunks(service: MockRegEngineService, mode: Mode, friction: seq<string>, events: seq<Event>,
                         cap: nat, w: World) returns (chunks: seq<Chunk>)
    requires 1 <= cap
    modifies service
    ensures (service.View(), chunks)
      == Sending(service.cfg, old(service.View()), mode, friction, events, cap, w, 0, 0)
  {
    hide Deliver;
    ghost var whole := Sending(service.cfg, service.View(), mode, friction, events, cap, w, 0, 0);
    var start, i := 0, 0;
    chunks := [];
    assert chunks + whole.1 == whole.1;
    while start < |events|
      invariant start <= |events|
      invariant
        var (m, rest) := Sending(service.cfg, service.View(), mode, friction, events, cap, w, start, i);
        (m, chunks + rest) == whole
    {
      if !w.goOn(i) {
        assert chunks + [] == chunks;
        return;
      }
      var stop := Upto(events, start, cap);
      ghost var before := chunks;
      ghost var rest := Sending(service.cfg, service.View(), mode, friction, events, cap, w, start, i).1;
      var outcome := DeliverPayload(service, mode, friction, events[start..stop], None, w, i);
      chunks := chunks + [Chunk(events[start..stop], outcome)];
      assert before + rest == chunks + rest[1..];
      start, i := stop, i + 1;
    }
    assert chunks + [] == chunks;
  }

  // ------------------------------------------------------------------ records

  predicate RejectedBy(outcome: Outcome, verdict: Option<Verdict>) {
    outcome.status == Posted && verdict.Some? && !verdict.value.accepted
  }

  /** `event_delivery_fields`: a rejected event was not ingested. */
  function StatusOf(outcome: Outcome, verdict: Option<Verdict>): Status {
    if RejectedBy(outcome, verdict) then Failed else outcome.status
  }

  /** An event with this verdict reads posted when its request went through. */
  predicate ReadsPosted(verdict: Option<Verdict>) {
    verdict.None? || verdict.value.accepted
  }

  function ErrorOf(outcome: Outcome, verdict: Option<Verdict>): Option<Complaint> {
    if !RejectedBy(outcome, verdict) then outcome.error
    else if verdict.value.errors == [] then Some(Unexplained)
    else Some(Rejected(verdict.value.errors))
  }

  function ReplyEvents(outcome: Outcome): seq<Verdict> {
    if outcome.reply.Some? then outcome.reply.value.events else []
  }

  function RecordOf(id: nat, event: Event, parents: seq<string>, mode: Mode, outcome: Outcome,
                    verdict: Option<Verdict>): Record
  {
    var status := StatusOf(outcome, verdict);
    Record(id, 0, event, parents, mode, status, outcome.attempts,
           if status == Posted then outcome.completedAt else None, verdict, ErrorOf(outcome, verdict), outcome.key)
  }

  function RecordsFor(ids: seq<nat>, events: seq<Event>, parents: seq<seq<string>>, mode: Mode,
                      outcome: Outcome): (r: seq<Record>)
    requires |ids| == |parents| == |events|
    ensures |r| == |events|
    ensures forall i :: 0 <= i < |r| ==>
      r[i] == RecordOf(ids[i], events[i], parents[i], mode, outcome, Paired(events, ReplyEvents(outcome), i))
  {
    seq(|events|, i requires 0 <= i < |events| =>
      RecordOf(ids[i], events[i], parents[i], mode, outcome, Paired(events, ReplyEvents(outcome), i)))
  }

  method BuildStoredRecords(ids: seq<nat>, events: seq<Event>, parents: seq<seq<string>>, mode: Mode,
                            outcome: Outcome) returns (records: seq<Record>)
    requires |ids| == |parents| == |events|
    ensures records == RecordsFor(ids, events, parents, mode, outcome)
  {
    hide Paired, RecordOf;
    var answers := if outcome.reply.Some? then outcome.reply.value.events else [];
    var paired := PairEventResponses(events, answers);
    records := [];
    for i := 0 to |events|
      invariant |records| == i
      invariant forall j :: 0 <= j < i ==>
        records[j] == RecordOf(ids[j], events[j], parents[j], mode, outcome, paired[j])
    {
      records := records + [RecordOf(ids[i], events[i], parents[i], mode, outcome, paired[i])];
    }
  }

  function SentBy(chunks: seq<Chunk>, n: nat): nat
    requires n <= |chunks|
  {
    if n == 0 then 0 else SentBy(chunks, n - 1) + |chunks[n - 1].events|
  }

  /** The records of the first `n` chunks, each built against its own chunk's outcome. */
  function ImportRecords(ids: seq<nat>, chunks: seq<Chunk>, parents: seq<seq<string>>, mode: Mode, n: nat): (r: seq<Record>)
    requires n <= |chunks| && |ids| == |parents| && SentBy(chunks, n) <= |parents|
    ensures |r| == SentBy(chunks, n)
  {
    if n == 0 then []
    else
      var offset := SentBy(chunks, n - 1);
      var next := SentBy(chunks, n);
      var chunk := chunks[n - 1];
      ImportRecords(ids, chunks, parents, mode, n - 1)
      + RecordsFor(ids[offset..next], chunk.events, parents[offset..next], mode, chunk.outcome)
  }

  lemma {:induction false} SentByMonotone(chunks: seq<Chunk>, m: nat, n: nat)
    requires m <= n <= |chunks|
    ensures SentBy(chunks, m) <= SentBy(chunks, n)
  {
    if m == n {
    } else {
      SentByMonotone(chunks, m, n - 1);
    }
  }

  /** The commit loop of an import. */
  method BuildImportRecords(ids: seq<nat>, chunks: seq<Chunk>, parents: seq<seq<string>>, mode: Mode)
    returns (records: seq<Record>)
    requires |ids| == |parents| && SentBy(chunks, |chunks|) <= |parents|
    ensures records == ImportRecords(ids, chunks, parents, mode, |chunks|)
  {
    records := [];
    var offset := 0;
    for i := 0 to |chunks|
      invariant offset == SentBy(chunks, i) <= |parents|
      invariant records == ImportRecords(ids, chunks, parents, mode, i)
    {
      SentByMonotone(chunks, i + 1, |chunks|);
      var next := offset + |chunks[i].events|;
      var built := BuildStoredRecords(ids[offset..next], chunks[i].events, parents[offset..next], mode, chunks[i].outcome);
      records := records + built;
      offset := next;
    }
  }

  // ------------------------------------------------------------------ totals

  function PostedBy(chunks: seq<Chunk>, n: nat): int
    requires n <= |chunks|
  {
    if n == 0 then 0 else PostedBy(chunks, n - 1) + chunks[n - 1].outcome.posted
  }

  function FailedBy(chunks: seq<Chunk>, n: nat): int
    requires n <= |chunks|
  {
    if n == 0 then 0 else FailedBy(chunks, n - 1) + chunks[n - 1].outcome.failed
  }

  function AttemptsBy(chunks: seq<Chunk>, n: nat): nat
    requires n <= |chunks|
  {
    if n == 0 then 0 else AttemptsBy(chunks, n - 1) + chunks[n - 1].outcome.attempts
  }

  function RepliesBy(chunks: seq<Chunk>, n: nat): seq<Verdict>
    requires n <= |chunks|
  {
    if n == 0 then [] else RepliesBy(chunks, n - 1) + ReplyEvents(chunks[n - 1].outcome)
  }

  predicate SomeFailed(chunks: seq<Chunk>) {
    exists i :: 0 <= i < |chunks| && chunks[i].outcome.status == Failed
  }

  predicate AllGenerated(chunks: seq<Chunk>) {
    forall i :: 0 <= i < |chunks| ==> chunks[i].outcome.status == Generated
  }

  predicate SomeReplied(chunks: seq<Chunk>) {
    exists i :: 0 <= i < |chunks| && chunks[i].outcome.reply.Some?
  }

  predicate SomeComplained(chunks: seq<Chunk>) {
    exists i :: 0 <= i < |chunks| && chunks[i].outcome.error.Some?
  }

  /** `aggregate_outcomes` */
  function Aggregate(chunks: seq<Chunk>): Outcome {
    var n := |chunks|;
    if n == 0 then NOTHING_SENT
    else if n == 1 then chunks[0].outcome
    else
      var posted, failed := PostedBy(chunks, n), FailedBy(chunks, n);
      Outcome(
        if SomeReplied(chunks) then Some(Reply(Some(posted), Some(failed), RepliesBy(chunks, n))) else None,
        if SomeFailed(chunks) then Failed else if AllGenerated(chunks) then Generated else Posted,
        posted, failed, AttemptsBy(chunks, n), None,
        if SomeComplained(chunks) then Some(Transport("several")) else None, None)
  }
}
