/**
 `_resume_chain_hash`: a restarted mock reads its chain tip back from the records its
 batches left in the store.
 */
module Resume {
  import opened Common
  import opened Records
  import opened MockSpec
  import opened Pairing
  import opened Delivery
  import DeliveryTotals
  import opened StoreSpec
  import StoreStory

  /** The hash a record hands on: only a mock delivery with a chain hash has one. */
  function Hands(r: Record): Option<Hash> {
    if r.mode == Mock && r.verdict.Some? && r.verdict.value.chain != "" then Some(r.verdict.value.chain) else None
  }

  /** The newest hash among the first `n` records. */
  function TipOf(records: seq<Record>, n: nat): Hash
    requires n <= |records|
  {
    if n == 0 then ""
    else if Hands(records[n - 1]).Some? then Hands(records[n - 1]).value
    else TipOf(records, n - 1)
  }

  /** Newest first by sequence number; the first record that hands a hash on wins. */
  method ResumeChainHash(persisted: seq<Record>) returns (tip: Hash)
    ensures tip == TipOf(SortBySeq(persisted), |persisted|)
  {
    hide SortBySeq;
    var records := SortBySeq(persisted);
    var i := |records|;
    while i > 0
      invariant 0 <= i <= |records|
      invariant TipOf(records, i) == TipOf(records, |records|)
    {
      if Hands(records[i - 1]).Some? {
        return Hands(records[i - 1]).value;
      }
      i := i - 1;
    }
    tip := "";
  }

  // ------------------------------------------------------------------ one batch

  lemma {:induction false} TipOfPrefix(xs: seq<Record>, ys: seq<Record>, n: nat)
    requires n <= |xs|
    ensures TipOf(xs + ys, n) == TipOf(xs, n)
  {
    if n == 0 {
    } else {
      TipOfPrefix(xs, ys, n - 1);
    }
  }

  /** `records` hand on, one by one, what the verdicts of a batch carry. */
  ghost predicate Carry(cfg: Config, chain: Hash, events: seq<Event>, now: int, records: seq<Record>) {
    |records| == |events| && forall i :: 0 <= i < |events| ==>
      Hands(records[i]) == if Accepts(cfg, events, now, i) then Some(ChainAfter(cfg, chain, events, now, i + 1)) else None
  }

  lemma {:induction false} TipFollowsBatch(cfg: Config, chain: Hash, events: seq<Event>, now: int,
                                           live: seq<Record>, records: seq<Record>, n: nat)
    requires TipOf(live, |live|) == chain && Carry(cfg, chain, events, now, records) && n <= |events|
    ensures TipOf(live + records, |live| + n) == ChainAfter(cfg, chain, events, now, n)
  {
    hide Accepts, Hands;
    if n > 0 {
      TipFollowsBatch(cfg, chain, events, now, live, records, n - 1);
      assert (live + records)[|live| + n - 1] == records[n - 1];
    } else {
      TipOfPrefix(live, records, |live|);
    }
  }

  ghost predicate NoneHands(records: seq<Record>) {
    forall i :: 0 <= i < |records| ==> Hands(records[i]).None?
  }

  lemma {:induction false} TipIgnores(live: seq<Record>, records: seq<Record>, n: nat)
    requires NoneHands(records) && n <= |records|
    ensures TipOf(live + records, |live| + n) == TipOf(live, |live|)
  {
    hide Hands;
    if n > 0 {
      TipIgnores(live, records, n - 1);
      assert (live + records)[|live| + n - 1] == records[n - 1];
    } else {
      TipOfPrefix(live, records, |live|);
    }
  }

  // ------------------------------------------------------------------ a run of batches

  /** A batch delivered under a new key and committed: nothing fails, nothing rotates. */
  datatype Batch = Batch(mode: Mode, friction: seq<string>, events: seq<Event>, parents: seq<seq<string>>, ids: seq<nat>)

  datatype Lab = Lab(service: Service, log: Log)

  function Commit(cfg: Config, b: Bounds, w: World, lab: Lab, batch: Batch, i: nat): Lab
    requires |batch.ids| == |batch.parents| == |batch.events|
  {
    var (m', outcome) := Deliver(cfg, lab.service, batch.mode, batch.friction, batch.events, None, w, i);
    var records := RecordsFor(batch.ids, batch.events, batch.parents, batch.mode, outcome);
    var all := Faults(|records|, true, true, 0, true);
    Lab(m', Append(b, lab.log, records, all).0)
  }

  predicate WellFormed(batches: seq<Batch>) {
    forall i :: 0 <= i < |batches| ==> |batches[i].ids| == |batches[i].parents| == |batches[i].events|
  }

  function CommitAll(cfg: Config, b: Bounds, w: World, batches: seq<Batch>): Lab
    requires WellFormed(batches)
    decreases |batches|
  {
    if batches == [] then Lab(Service("", []), EMPTY)
    else
      var n := |batches| - 1;
      Commit(cfg, b, w, CommitAll(cfg, b, w, batches[..n]), batches[n], n)
  }

  function Total(batches: seq<Batch>): nat {
    if batches == [] then 0 else Total(batches[..|batches| - 1]) + |batches[|batches| - 1].events|
  }

  /** The store's log hands on exactly the service's tip. */
  ghost predicate Resumes(b: Bounds, lab: Lab) {
    Consistent(b, lab.log) && TipOf(lab.log.live, |lab.log.live|) == lab.service.chain
  }

  ghost predicate Hashes(cfg: Config) {
    forall h, e :: cfg.link(h, e) != ""
  }

  lemma NumberedHands(records: seq<Record>, from: int, i: nat)
    requires i < |records|
    ensures Hands(Number(records, from)[i]) == Hands(records[i])
  {}

  /** A fault-free append without a rotation adds exactly the numbered records. */
  lemma PlainAppend(b: Bounds, g: Log, records: seq<Record>)
    requires Consistent(b, g) && 1 <= b.maxHistory && g.count + |records| <= b.maxHistory + Slack(b)
    ensures var g' := Append(b, g, records, Faults(|records|, true, true, 0, true)).0;
      Consistent(b, g') && g'.live == g.live + Number(records, g.counter)
  {
    hide Increasing, SortBySeq;
    assert records[..|records|] == records;
    StoreStory.AppendKeepsStory(b, g, records, Faults(|records|, true, true, 0, true));
  }

  lemma {:induction false} AcceptedHashes(cfg: Config, chain: Hash, events: seq<Event>, now: int, i: nat)
    requires Hashes(cfg) && i < |events| && Accepts(cfg, events, now, i)
    ensures ChainAfter(cfg, chain, events, now, i + 1) != ""
  {
    hide Accepts;
    assert ChainAfter(cfg, chain, events, now, i + 1)
      == cfg.link(ChainAfter(cfg, chain, events, now, i), cfg.digest(events[i]));
  }

  /** The records of a mock batch that was answered carry its verdicts. */
  lemma PostedCarry(cfg: Config, m: Service, friction: seq<string>, batch: Batch, w: World, i: nat, j: nat)
    requires |batch.ids| == |batch.parents| == |batch.events| && j < |batch.events| && Hashes(cfg)
    requires !Holds(m.cache, w.minted(i)) && Gate(RequestOf(batch.events, w.minted(i), friction, w, i)).None?
    ensures var (m', outcome) := Deliver(cfg, m, Mock, friction, batch.events, None, w, i);
      && m'.chain == ChainAfter(cfg, m.chain, batch.events, w.clock(i), |batch.events|)
      && Hands(RecordsFor(batch.ids, batch.events, batch.parents, Mock, outcome)[j])
           == if Accepts(cfg, batch.events, w.clock(i), j)
              then Some(ChainAfter(cfg, m.chain, batch.events, w.clock(i), j + 1)) else None
  {
    hide Gate, ErrorsAt, ChainAfter, AcceptedAmong, StaleAmong, Paired, Accepts;
    var own := Verdicts(cfg, m.chain, batch.events, w.clock(i));
    assert Own(batch.events, own);
    RequestOrderIsRight(batch.events, own);
    assert Paired(batch.events, own, j) == Some(own[j]);
    if Accepts(cfg, batch.events, w.clock(i), j) {
      AcceptedHashes(cfg, m.chain, batch.events, w.clock(i), j);
    }
  }

  /** A batch that failed as a whole, or went elsewhere, hands nothing on. */
  lemma OthersCarryNothing(cfg: Config, m: Service, batch: Batch, w: World, i: nat)
    requires |batch.ids| == |batch.parents| == |batch.events|
    requires batch.mode == Mock ==> Gate(RequestOf(batch.events, w.minted(i), batch.friction, w, i)).Some?
    ensures var (m', outcome) := Deliver(cfg, m, batch.mode, batch.friction, batch.events, None, w, i);
      m' == m && NoneHands(RecordsFor(batch.ids, batch.events, batch.parents, batch.mode, outcome))
  {
    hide Gate, StatusOf, ErrorOf;
    var (m', outcome) := Deliver(cfg, m, batch.mode, batch.friction, batch.events, None, w, i);
    var records := RecordsFor(batch.ids, batch.events, batch.parents, batch.mode, outcome);
    if batch.mode == Mock {
      assert ReplyEvents(outcome) == [];
      forall j | 0 <= j < |records| ensures Hands(records[j]).None? {
        NoAnswers(KeyOf(batch.events[j]));
      }
    }
  }

  /** The tip the log hands on once `records` are appended is the service's. */
  ghost predicate TipMatches(live: seq<Record>, g: Log, records: seq<Record>, chain: Hash) {
    var added := Number(records, g.counter);
    TipOf(live + added, |live + added|) == chain
  }

  lemma AnsweredTip(cfg: Config, m: Service, batch: Batch, w: World, i: nat, g: Log)
    requires |batch.ids| == |batch.parents| == |batch.events| && Hashes(cfg) && batch.mode == Mock
    requires !Holds(m.cache, w.minted(i)) && Gate(RequestOf(batch.events, w.minted(i), batch.friction, w, i)).None?
    requires TipOf(g.live, |g.live|) == m.chain && batch.events != []
    ensures var (m', outcome) := Deliver(cfg, m, Mock, batch.friction, batch.events, None, w, i);
      TipMatches(g.live, g, RecordsFor(batch.ids, batch.events, batch.parents, Mock, outcome), m'.chain)
  {
    hide Deliver, Hands, Gate, Accepts, ChainAfter, RecordOf, Paired, TipOf;
    var outcome := Deliver(cfg, m, Mock, batch.friction, batch.events, None, w, i).1;
    var records := RecordsFor(batch.ids, batch.events, batch.parents, Mock, outcome);
    var added := Number(records, g.counter);
    forall j | 0 <= j < |batch.events|
      ensures Hands(added[j]) == if Accepts(cfg, batch.events, w.clock(i), j)
        then Some(ChainAfter(cfg, m.chain, batch.events, w.clock(i), j + 1)) else None
    {
      NumberedHands(records, g.counter, j);
      PostedCarry(cfg, m, batch.friction, batch, w, i, j);
    }
    PostedCarry(cfg, m, batch.friction, batch, w, i, 0);
    TipFollowsBatch(cfg, m.chain, batch.events, w.clock(i), g.live, added, |batch.events|);
  }

  lemma OtherTip(cfg: Config, m: Service, batch: Batch, w: World, i: nat, g: Log)
    requires |batch.ids| == |batch.parents| == |batch.events| && TipOf(g.live, |g.live|) == m.chain
    requires batch.mode == Mock ==> Gate(RequestOf(batch.events, w.minted(i), batch.friction, w, i)).Some?
    ensures var (m', outcome) := Deliver(cfg, m, batch.mode, batch.friction, batch.events, None, w, i);
      TipMatches(g.live, g, RecordsFor(batch.ids, batch.events, batch.parents, batch.mode, outcome), m'.chain)
  {
    hide Deliver, Hands, Gate, RecordOf, Paired, TipOf;
    var outcome := Deliver(cfg, m, batch.mode, batch.friction, batch.events, None, w, i).1;
    var records := RecordsFor(batch.ids, batch.events, batch.parents, batch.mode, outcome);
    var added := Number(records, g.counter);
    OthersCarryNothing(cfg, m, batch, w, i);
    forall j | 0 <= j < |records| ensures Hands(added[j]).None? {
      NumberedHands(records, g.counter, j);
    }
    TipIgnores(g.live, added, |added|);
  }

  lemma NoEventsFail(events: seq<Event>, key: string, friction: seq<string>, w: World, i: nat)
    requires events == []
    ensures Gate(RequestOf(events, key, friction, w, i)).Some?
  {}

  lemma CountIsLength(b: Bounds, g: Log)
    requires Consistent(b, g)
    ensures g.count == |g.live|
  {}

  lemma CommitResumes(cfg: Config, b: Bounds, w: World, lab: Lab, batch: Batch, i: nat)
    requires |batch.ids| == |batch.parents| == |batch.events| && Hashes(cfg) && 1 <= b.maxHistory
    requires Resumes(b, lab) && !Holds(lab.service.cache, w.minted(i))
    requires lab.log.count + |batch.events| <= b.maxHistory + Slack(b)
    ensures var lab' := Commit(cfg, b, w, lab, batch, i);
      Resumes(b, lab') && lab'.log.count == lab.log.count + |batch.events|
  {
    hide Deliver, Append, TipOf, Hands, Gate, Consistent, RecordOf, Slack;
    var m := lab.service;
    var outcome := Deliver(cfg, m, batch.mode, batch.friction, batch.events, None, w, i).1;
    var records := RecordsFor(batch.ids, batch.events, batch.parents, batch.mode, outcome);
    if batch.events == [] {
      NoEventsFail(batch.events, w.minted(i), batch.friction, w, i);
    }
    if batch.mode == Mock && Gate(RequestOf(batch.events, w.minted(i), batch.friction, w, i)).None? {
      AnsweredTip(cfg, m, batch, w, i, lab.log);
    } else {
      OtherTip(cfg, m, batch, w, i, lab.log);
    }
    PlainAppend(b, lab.log, records);
    CountIsLength(b, lab.log);
    CountIsLength(b, Commit(cfg, b, w, lab, batch, i).log);
  }

  lemma CommitKeepsKeysNew(cfg: Config, b: Bounds, w: World, lab: Lab, batch: Batch, i: nat)
    requires |batch.ids| == |batch.parents| == |batch.events|
    requires DeliveryTotals.NewKeys(lab.service, w, i)
    ensures DeliveryTotals.NewKeys(Commit(cfg, b, w, lab, batch, i).service, w, i + 1)
  {
    hide Ingest, Append;
    DeliveryTotals.KeysStayNew(cfg, lab.service, batch.friction, batch.events, w, i);
  }

  /** After any run of committed batches under new keys that no rotation trimmed, the tip
      read back from the log is the service's own; raising batches and those sent
      elsewhere or nowhere do not disturb it. */
  lemma {:induction false} RestartResumes(cfg: Config, b: Bounds, w: World, batches: seq<Batch>)
    requires WellFormed(batches) && Hashes(cfg) && 1 <= b.maxHistory
    requires DeliveryTotals.NewKeys(Service("", []), w, 0)
    requires Total(batches) <= b.maxHistory + Slack(b)
    ensures var lab := CommitAll(cfg, b, w, batches);
      && Resumes(b, lab) && lab.log.count == Total(batches)
      && DeliveryTotals.NewKeys(lab.service, w, |batches|)
    decreases |batches|
  {
    hide Commit, Slack;
    if batches == [] {
    } else {
      var n := |batches| - 1;
      var front := batches[..n];
      var lab := CommitAll(cfg, b, w, front);
      RestartResumes(cfg, b, w, front);
      DeliveryTotals.FreshHere(lab.service, w, n);
      CommitResumes(cfg, b, w, lab, batches[n], n);
      CommitKeepsKeysNew(cfg, b, w, lab, batches[n], n);
    }
  }

  /** So the restarted service continues the same chain. */
  method Restart(cfg: Config, b: Bounds, w: World, batches: seq<Batch>) returns (tip: Hash)
    requires WellFormed(batches) && Hashes(cfg) && 1 <= b.maxHistory
    requires DeliveryTotals.NewKeys(Service("", []), w, 0)
    requires Total(batches) <= b.maxHistory + Slack(b)
    ensures tip == CommitAll(cfg, b, w, batches).service.chain
  {
    hide Slack;
    RestartResumes(cfg, b, w, batches);
    var live := CommitAll(cfg, b, w, batches).log.live;
    StoreStory.SortOfIncreasing(live);
    tip := ResumeChainHash(live);
  }
}
