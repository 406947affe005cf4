/**
 What a mock import adds up to, wherever it stops, and the hash chain read back from the
 records it left.
 */
module DeliveryTotals {
  import opened Common
  import opened Records
  import opened MockSpec
  import opened MockCache
  import opened Pairing
  import opened Delivery

  // ------------------------------------------------------------------ pieces

  /** All chunks but the last are full, and none is empty or over the cap. */
  ghost predicate Pieces(chunks: seq<Chunk>, cap: nat) {
    forall i :: 0 <= i < |chunks| ==>
      1 <= |chunks[i].events| <= cap && (i < |chunks| - 1 ==> |chunks[i].events| == cap)
  }

  function EventsOf(chunks: seq<Chunk>): seq<Event> {
    if chunks == [] then [] else chunks[0].events + EventsOf(chunks[1..])
  }

  lemma PiecesCons(first: Chunk, rest: seq<Chunk>, cap: nat)
    requires Pieces(rest, cap) && 1 <= |first.events| <= cap && (rest != [] ==> |first.events| == cap)
    ensures Pieces([first] + rest, cap)
  {}

  lemma EventsCons(first: Chunk, rest: seq<Chunk>, events: seq<Event>, start: nat, stop: nat)
    requires start <= stop <= |events| && first.events == events[start..stop]
    requires |EventsOf(rest)| <= |events| - stop && EventsOf(rest) == events[stop..stop + |EventsOf(rest)|]
    ensures |EventsOf([first] + rest)| == stop - start + |EventsOf(rest)|
    ensures EventsOf([first] + rest) == events[start..stop + |EventsOf(rest)|]
  {
    assert ([first] + rest)[1..] == rest;
  }

  lemma NoChunks(cap: nat)
    ensures Pieces([], cap) && EventsOf([]) == []
  {}

  /** However the store moves meanwhile, the chunks are the events cut into pieces from
      the start; if it never moves, all of them. */
  lemma {:induction false} ChunksAreAPrefix(cfg: Config, m: Service, mode: Mode, friction: seq<string>,
                                            events: seq<Event>, cap: nat, w: World, start: nat, i: nat)
    requires 1 <= cap && start <= |events|
    ensures var chunks := Sending(cfg, m, mode, friction, events, cap, w, start, i).1;
      && Pieces(chunks, cap)
      && |EventsOf(chunks)| <= |events| - start
      && EventsOf(chunks) == events[start..start + |EventsOf(chunks)|]
      && ((forall j :: w.goOn(j)) ==> |EventsOf(chunks)| == |events| - start)
    decreases |events| - start
  {
    hide Deliver, EventsOf, Pieces;
    if start < |events| && w.goOn(i) {
      var stop := Upto(events, start, cap);
      var (m', outcome) := Deliver(cfg, m, mode, friction, events[start..stop], None, w, i);
      var rest := Sending(cfg, m', mode, friction, events, cap, w, stop, i + 1).1;
      ChunksAreAPrefix(cfg, m', mode, friction, events, cap, w, stop, i + 1);
      PiecesCons(Chunk(events[start..stop], outcome), rest, cap);
      EventsCons(Chunk(events[start..stop], outcome), rest, events, start, stop);
    } else {
      NoChunks(cap);
    }
  }

  // ------------------------------------------------------- a mock answers faithfully

  /** The outcome fails the chunk as a whole, or has each event's own verdict and counts them. */
  ghost predicate Faithful(chunk: Chunk) {
    var n := |chunk.events|;
    var o := chunk.outcome;
    if o.status == Failed then o.posted == 0 && o.failed == n && o.reply.None?
    else
      && o.status == Posted && o.reply.Some?
      && Own(chunk.events, o.reply.value.events)
      && o.posted == AcceptedAmong(o.reply.value.events, n)
      && o.failed == n - o.posted
  }

  /** From the `i`-th request on, minted keys are new to the service and to each other. */
  ghost predicate NewKeys(m: Service, w: World, i: nat) {
    && (forall j: nat :: i <= j ==> !Holds(m.cache, w.minted(j)))
    && (forall j: nat, k: nat :: i <= j < k ==> w.minted(j) != w.minted(k))
  }

  lemma FreshIsFaithful(cfg: Config, m: Service, friction: seq<string>, events: seq<Event>, w: World, i: nat)
    requires !Holds(m.cache, w.minted(i))
    ensures Faithful(Chunk(events, Deliver(cfg, m, Mock, friction, events, None, w, i).1))
  {
    hide Gate, ErrorsAt, ChainAfter, AcceptedAmong, StaleAmong;
  }

  lemma NewestHolds(cache: seq<Entry>, n: nat, key: string)
    requires !Holds(cache, key)
    ensures !Holds(LastN(cache, n), key)
  {}

  lemma KeysStayNew(cfg: Config, m: Service, friction: seq<string>, events: seq<Event>, w: World, i: nat)
    requires NewKeys(m, w, i)
    ensures NewKeys(Deliver(cfg, m, Mock, friction, events, None, w, i).0, w, i + 1)
  {
    hide Gate, Answer, ChainAfter;
    var m' := Deliver(cfg, m, Mock, friction, events, None, w, i).0;
    forall j: nat | i + 1 <= j ensures !Holds(m'.cache, w.minted(j)) {
      assert w.minted(i) != w.minted(j);
      var e := Entry(w.minted(i), Answer(cfg, m.chain, events, w.clock(i)), w.clock(i));
      AppendHolds(m.cache, e, w.minted(j));
      NewestHolds(m.cache + [e], IDEMPOTENCY_CACHE_LIMIT, w.minted(j));
    }
  }

  ghost predicate AllFaithful(chunks: seq<Chunk>) {
    forall i :: 0 <= i < |chunks| ==> Faithful(chunks[i])
  }

  lemma FreshHere(m: Service, w: World, i: nat)
    requires NewKeys(m, w, i)
    ensures !Holds(m.cache, w.minted(i))
  {}

  lemma {:induction false} ImportIsFaithful(cfg: Config, m: Service, friction: seq<string>, events: seq<Event>,
                                            cap: nat, w: World, start: nat, i: nat)
    requires 1 <= cap && start <= |events| && NewKeys(m, w, i)
    ensures AllFaithful(Sending(cfg, m, Mock, friction, events, cap, w, start, i).1)
    decreases |events| - start
  {
    hide Deliver, Faithful, NewKeys;
    if start == |events| || !w.goOn(i) {
    } else {
      var stop := Upto(events, start, cap);
      FreshHere(m, w, i);
      FreshIsFaithful(cfg, m, friction, events[start..stop], w, i);
      KeysStayNew(cfg, m, friction, events[start..stop], w, i);
      ImportIsFaithful(cfg, Deliver(cfg, m, Mock, friction, events[start..stop], None, w, i).0,
                       friction, events, cap, w, stop, i + 1);
    }
  }

  // ------------------------------------------------------------------ adding up

  function CountStatus(records: seq<Record>, n: nat, status: Status): nat
    requires n <= |records|
  {
    if n == 0 then 0 else CountStatus(records, n - 1, status) + if records[n - 1].status == status then 1 else 0
  }

  lemma {:induction false} CountPrefix(xs: seq<Record>, ys: seq<Record>, n: nat, status: Status)
    requires n <= |xs|
    ensures CountStatus(xs + ys, n, status) == CountStatus(xs, n, status)
  {
    if n == 0 {
    } else {
      CountPrefix(xs, ys, n - 1, status);
    }
  }

  lemma {:induction false} CountCat(xs: seq<Record>, ys: seq<Record>, n: nat, status: Status)
    requires n <= |ys|
    ensures CountStatus(xs + ys, |xs| + n, status) == CountStatus(xs, |xs|, status) + CountStatus(ys, n, status)
  {
    if n > 0 {
      CountCat(xs, ys, n - 1, status);
    } else {
      CountPrefix(xs, ys, |xs|, status);
    }
  }

  lemma {:induction false} PostedChunk(records: seq<Record>, verdicts: seq<Verdict>, n: nat)
    requires n <= |records| && n <= |verdicts|
    requires forall i :: 0 <= i < n ==> records[i].status == if verdicts[i].accepted then Posted else Failed
    ensures CountStatus(records, n, Posted) == AcceptedAmong(verdicts, n)
    ensures CountStatus(records, n, Failed) == n - AcceptedAmong(verdicts, n)
  {
    if n == 0 {
    } else {
      PostedChunk(records, verdicts, n - 1);
    }
  }

  lemma {:induction false} FailedChunk(records: seq<Record>, n: nat)
    requires n <= |records| && forall i :: 0 <= i < n ==> records[i].status == Failed
    ensures CountStatus(records, n, Posted) == 0 && CountStatus(records, n, Failed) == n
  {
    if n == 0 {
    } else {
      FailedChunk(records, n - 1);
    }
  }

  /** So many records posted, so many failed, and no other. */
  ghost predicate Counts(records: seq<Record>, posted: int, failed: int) {
    && CountStatus(records, |records|, Posted) == posted
    && CountStatus(records, |records|, Failed) == failed
    && posted + failed == |records|
  }

  lemma OwnIsOne(events: seq<Event>, own: seq<Verdict>)
    requires Own(events, own)
    ensures |own| == |events|
  {}

  /** The records of a faithful chunk: as many posted and failed as its outcome counts. */
  lemma ChunkAddsUp(ids: seq<nat>, chunk: Chunk, parents: seq<seq<string>>, mode: Mode)
    requires |ids| == |parents| == |chunk.events| && Faithful(chunk)
    ensures Counts(RecordsFor(ids, chunk.events, parents, mode, chunk.outcome), chunk.outcome.posted, chunk.outcome.failed)
  {
    var records := RecordsFor(ids, chunk.events, parents, mode, chunk.outcome);
    hide Paired, Own, AcceptedAmong;
    if chunk.outcome.status == Failed {
      FailedChunk(records, |records|);
    } else {
      var own := chunk.outcome.reply.value.events;
      OwnIsOne(chunk.events, own);
      RequestOrderIsRight(chunk.events, own);
      PostedChunk(records, own, |records|);
    }
  }

  /** A record's fields agree with one another, whatever the service answered: it is posted
      exactly if it has no error and a time of success; its own rejection, if its request
      went through, is its error. */
  lemma RecordTellsOutcome(id: nat, event: Event, parents: seq<string>, mode: Mode, sent: nat,
                           result: Result<Reply, string>, at: int, key: string, verdict: Option<Verdict>)
    ensures var r := RecordOf(id, event, parents, mode, OutcomeOf(sent, result, at, key), verdict);
      && (r.status == Posted <==> r.error.None?) && (r.status == Posted <==> r.succeededAt == Some(at))
      && (r.status == Posted || r.status == Failed) && r.attempts == 1 && r.key == Some(key)
      && (r.status == Posted ==> result.Ok? && |result.value.events| == sent && (verdict.Some? ==> verdict.value.accepted))
      && (result.Ok? && |result.value.events| == sent && verdict.Some? && !verdict.value.accepted ==>
            r.error == Some(if verdict.value.errors == [] then Unexplained else Rejected(verdict.value.errors)))
  {
    if result.Ok? && |result.value.events| == sent {
      assert OutcomeOf(sent, result, at, key).status == Posted;
    }
  }

  lemma CountsJoin(xs: seq<Record>, ys: seq<Record>, posted: int, failed: int, posted': int, failed': int)
    requires Counts(xs, posted, failed) && Counts(ys, posted', failed')
    ensures Counts(xs + ys, posted + posted', failed + failed')
  {
    hide CountStatus;
    CountCat(xs, ys, |ys|, Posted);
    CountCat(xs, ys, |ys|, Failed);
  }

  lemma {:induction false} ChunksAddUp(ids: seq<nat>, chunks: seq<Chunk>, parents: seq<seq<string>>, mode: Mode, n: nat)
    requires n <= |chunks| && |ids| == |parents| && SentBy(chunks, n) <= |parents| && AllFaithful(chunks)
    ensures Counts(ImportRecords(ids, chunks, parents, mode, n), PostedBy(chunks, n), FailedBy(chunks, n))
  {
    hide Faithful, RecordOf, Paired;
    if n == 0 {
    } else {
      hide Counts;
      ChunksAddUp(ids, chunks, parents, mode, n - 1);
      var offset, next := SentBy(chunks, n - 1), SentBy(chunks, n);
      var before := ImportRecords(ids, chunks, parents, mode, n - 1);
      var built := RecordsFor(ids[offset..next], chunks[n - 1].events, parents[offset..next], mode, chunks[n - 1].outcome);
      ChunkAddsUp(ids[offset..next], chunks[n - 1], parents[offset..next], mode);
      CountsJoin(before, built, PostedBy(chunks, n - 1), FailedBy(chunks, n - 1),
                 chunks[n - 1].outcome.posted, chunks[n - 1].outcome.failed);
    }
  }

  lemma OneSums(chunk: Chunk)
    ensures var chunks := [chunk];
      && PostedBy(chunks, 1) == chunk.outcome.posted && FailedBy(chunks, 1) == chunk.outcome.failed
      && AttemptsBy(chunks, 1) == chunk.outcome.attempts && RepliesBy(chunks, 1) == ReplyEvents(chunk.outcome)
      && (SomeFailed(chunks) <==> chunk.outcome.status == Failed)
      && (AllGenerated(chunks) <==> chunk.outcome.status == Generated)
  {
    var chunks := [chunk];
    assert chunks[0] == chunk;
    assert PostedBy(chunks, 0) == 0 && FailedBy(chunks, 0) == 0 && AttemptsBy(chunks, 0) == 0 && RepliesBy(chunks, 0) == [];
  }

  lemma FailedIsSent(chunks: seq<Chunk>)
    requires SomeFailed(chunks)
    ensures !AllGenerated(chunks) && chunks != []
  {}

  lemma {:induction false} NoReplies(chunks: seq<Chunk>, n: nat)
    requires n <= |chunks| && !SomeReplied(chunks)
    ensures RepliesBy(chunks, n) == []
  {
    if n == 0 {
    } else {
      NoReplies(chunks, n - 1);
    }
  }

  /** The summary is the sum over the chunks, one chunk or many, and its status names the
      worst: failed if any failed, posted if none did and one was sent. */
  lemma AggregateSums(chunks: seq<Chunk>)
    ensures var a := Aggregate(chunks);
      && a.posted == PostedBy(chunks, |chunks|) && a.failed == FailedBy(chunks, |chunks|)
      && a.attempts == AttemptsBy(chunks, |chunks|)
      && (a.status == Failed <==> SomeFailed(chunks))
      && (a.status == Generated <==> AllGenerated(chunks))
      && ReplyEvents(a) == RepliesBy(chunks, |chunks|)
      && (a.error.Some? <==> exists i :: 0 <= i < |chunks| && chunks[i].outcome.error.Some?)
  {
    if SomeFailed(chunks) {
      FailedIsSent(chunks);
    }
    hide SomeFailed;
    if |chunks| == 1 {
      hide AllGenerated;
      assert chunks == [chunks[0]];
      OneSums(chunks[0]);
    } else if |chunks| > 1 {
      hide AllGenerated, PostedBy, FailedBy, AttemptsBy, RepliesBy;
      if !SomeReplied(chunks) {
        NoReplies(chunks, |chunks|);
      }
    } else {
      assert !SomeFailed(chunks) by { if SomeFailed(chunks) { FailedIsSent(chunks); } }
    }
  }

  /** The events of the first `n` chunks. */
  function EventsFirst(chunks: seq<Chunk>, n: nat): (r: seq<Event>)
    requires n <= |chunks|
    ensures |r| == SentBy(chunks, n)
  {
    if n == 0 then [] else EventsFirst(chunks, n - 1) + chunks[n - 1].events
  }

  lemma {:induction false} FirstShift(chunks: seq<Chunk>, n: nat)
    requires 1 <= n <= |chunks|
    ensures EventsFirst(chunks, n) == chunks[0].events + EventsFirst(chunks[1..], n - 1)
  {
    if n > 1 {
      FirstShift(chunks, n - 1);
      assert EventsFirst(chunks[1..], n - 1) == EventsFirst(chunks[1..], n - 2) + chunks[n - 1].events;
    } else {
      assert EventsFirst(chunks, 1) == EventsFirst(chunks, 0) + chunks[0].events;
    }
  }

  lemma {:induction false} EventsBothWays(chunks: seq<Chunk>)
    ensures EventsFirst(chunks, |chunks|) == EventsOf(chunks)
  {
    if chunks == [] {
    } else {
      EventsBothWays(chunks[1..]);
      FirstShift(chunks, |chunks|);
    }
  }

  /** A mock import stopped anywhere: its records are posted and failed exactly as often as
      the summary counts, which together is the number of events sent. */
  lemma ImportAddsUp(cfg: Config, m: Service, friction: seq<string>, events: seq<Event>, cap: nat, w: World,
                     ids: seq<nat>, parents: seq<seq<string>>)
    requires 1 <= cap && NewKeys(m, w, 0) && |ids| == |parents| == |events|
    ensures var chunks := Sending(cfg, m, Mock, friction, events, cap, w, 0, 0).1;
      && SentBy(chunks, |chunks|) == |EventsOf(chunks)| <= |events|
      && var records := ImportRecords(ids, chunks, parents, Mock, |chunks|);
      && |records| == |EventsOf(chunks)|
      && CountStatus(records, |records|, Posted) == Aggregate(chunks).posted
      && CountStatus(records, |records|, Failed) == Aggregate(chunks).failed
      && Aggregate(chunks).posted + Aggregate(chunks).failed == |records|
  {
    hide Deliver, Faithful, Aggregate, NewKeys, Sending, RecordOf;
    var chunks := Sending(cfg, m, Mock, friction, events, cap, w, 0, 0).1;
    ChunksAreAPrefix(cfg, m, Mock, friction, events, cap, w, 0, 0);
    ImportIsFaithful(cfg, m, friction, events, cap, w, 0, 0);
    EventsBothWays(chunks);
    ChunksAddUp(ids, chunks, parents, Mock, |chunks|);
    AggregateSums(chunks);
  }

  predicate About(r: Record, id: nat, event: Event, parents: seq<string>, mode: Mode) {
    r.id == id && r.event == event && r.parents == parents && r.mode == mode
  }

  lemma ChunkRecord(ids: seq<nat>, chunk: Chunk, parents: seq<seq<string>>, mode: Mode, j: nat)
    requires |ids| == |parents| == |chunk.events| && j < |chunk.events|
    ensures About(RecordsFor(ids, chunk.events, parents, mode, chunk.outcome)[j], ids[j], chunk.events[j], parents[j], mode)
  {}

  lemma LastChunkRecord(ids: seq<nat>, chunks: seq<Chunk>, parents: seq<seq<string>>, mode: Mode, n: nat, i: nat)
    requires 1 <= n <= |chunks| && |ids| == |parents| && SentBy(chunks, n) <= |parents|
    requires SentBy(chunks, n - 1) <= i < SentBy(chunks, n)
    ensures About(ImportRecords(ids, chunks, parents, mode, n)[i],
                  ids[i], chunks[n - 1].events[i - SentBy(chunks, n - 1)], parents[i], mode)
  {
    hide About, RecordOf, Paired;
    var offset, next := SentBy(chunks, n - 1), SentBy(chunks, n);
    var before := ImportRecords(ids, chunks, parents, mode, n - 1);
    var built := RecordsFor(ids[offset..next], chunks[n - 1].events, parents[offset..next], mode, chunks[n - 1].outcome);
    ChunkRecord(ids[offset..next], chunks[n - 1], parents[offset..next], mode, i - offset);
    assert (before + built)[i] == built[i - offset];
  }

  lemma EarlierChunkRecord(ids: seq<nat>, chunks: seq<Chunk>, parents: seq<seq<string>>, mode: Mode, n: nat, i: nat)
    requires 1 <= n <= |chunks| && |ids| == |parents| && SentBy(chunks, n) <= |parents| && i < SentBy(chunks, n - 1)
    ensures ImportRecords(ids, chunks, parents, mode, n)[i] == ImportRecords(ids, chunks, parents, mode, n - 1)[i]
  {
    hide RecordOf, Paired;
  }

  lemma {:induction false} RecordKeepsItsEvent(ids: seq<nat>, chunks: seq<Chunk>, parents: seq<seq<string>>,
                                               mode: Mode, events: seq<Event>, n: nat, i: nat)
    requires n <= |chunks| && |ids| == |parents| == |events|
    requires EventsFirst(chunks, n) <= events && i < SentBy(chunks, n)
    ensures About(ImportRecords(ids, chunks, parents, mode, n)[i], ids[i], events[i], parents[i], mode)
  {
    hide ImportRecords, About;
    if i < SentBy(chunks, n - 1) {
      EarlierChunkRecord(ids, chunks, parents, mode, n, i);
      RecordKeepsItsEvent(ids, chunks, parents, mode, events, n - 1, i);
    } else {
      LastChunkRecord(ids, chunks, parents, mode, n, i);
      assert EventsFirst(chunks, n)[i] == chunks[n - 1].events[i - SentBy(chunks, n - 1)];
    }
  }

  /** Record `i` of an import, stopped anywhere, is about event `i` and carries parent list `i`. */
  lemma ImportKeepsEvents(cfg: Config, m: Service, mode: Mode, friction: seq<string>, events: seq<Event>, cap: nat,
                          w: World, ids: seq<nat>, parents: seq<seq<string>>, i: nat)
    requires 1 <= cap && |ids| == |parents| == |events|
    ensures var chunks := Sending(cfg, m, mode, friction, events, cap, w, 0, 0).1;
      && SentBy(chunks, |chunks|) <= |events|
      && (i < SentBy(chunks, |chunks|) ==>
            About(ImportRecords(ids, chunks, parents, mode, |chunks|)[i], ids[i], events[i], parents[i], mode))
  {
    hide *;
    var chunks := Sending(cfg, m, mode, friction, events, cap, w, 0, 0).1;
    ChunksAreAPrefix(cfg, m, mode, friction, events, cap, w, 0, 0);
    EventsBothWays(chunks);
    if i < SentBy(chunks, |chunks|) {
      RecordKeepsItsEvent(ids, chunks, parents, mode, events, |chunks|, i);
    }
  }
}
