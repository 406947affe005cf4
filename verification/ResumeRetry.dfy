/**
 When a restarted mock finds its tip although batches were retried: a retried record keeps
 its old place in the log, so the newest record need not carry the newest hash, and a
 replayed answer puts old hashes back.
 */
module ResumeRetry {
  import opened Common
  import opened Records
  import opened MockSpec
  import opened Pairing
  import opened Delivery
  import opened DeliveryTotals
  import opened Retry
  import opened RetryExact
  import RetryRuns
  import RetrySplit
  import Resume

  // ------------------------------------------------------------------ the newest hash

  /** The hash a verdict carries. */
  function Carried(verdict: Option<Verdict>): Option<Hash> {
    if verdict.Some? && verdict.value.chain != "" then Some(verdict.value.chain) else None
  }

  lemma {:induction false} TipAt(records: seq<Record>, n: nat, p: nat)
    requires p < n <= |records| && Resume.Hands(records[p]).Some?
    requires forall q :: p < q < n ==> Resume.Hands(records[q]).None?
    ensures Resume.TipOf(records, n) == Resume.Hands(records[p]).value
  {
    hide Resume.Hands;
    if n == p + 1 {
    } else {
      TipAt(records, n - 1, p);
    }
  }

  lemma {:induction false} TipBehind(records: seq<Record>, n: nat, p: nat) returns (q: nat)
    requires p < n <= |records| && Resume.Hands(records[p]).Some?
    ensures p <= q < n && Resume.Hands(records[q]) == Some(Resume.TipOf(records, n))
  {
    hide Resume.Hands;
    if Resume.Hands(records[n - 1]).Some? {
      q := n - 1;
    } else {
      q := TipBehind(records, n - 1, p);
    }
  }

  lemma {:induction false} TipSame(log: seq<Record>, log': seq<Record>, n: nat)
    requires n <= |log| && n <= |log'| && forall p :: 0 <= p < n ==> Resume.Hands(log'[p]) == Resume.Hands(log[p])
    ensures Resume.TipOf(log', n) == Resume.TipOf(log, n)
  {
    hide Resume.Hands;
    if n == 0 {
    } else {
      TipSame(log, log', n - 1);
    }
  }

  lemma {:induction false} TipIsHanded(records: seq<Record>, n: nat) returns (p: nat)
    requires n <= |records| && Resume.TipOf(records, n) != ""
    ensures p < n && Resume.Hands(records[p]) == Some(Resume.TipOf(records, n))
  {
    hide Resume.Hands;
    if Resume.Hands(records[n - 1]).Some? {
      p := n - 1;
    } else {
      p := TipIsHanded(records, n - 1);
    }
  }

  /** A tip that is new to the log is not the one the log hands on. */
  lemma NewTipIsMissed(log: seq<Record>, chain: Hash)
    requires chain != "" && forall p :: 0 <= p < |log| ==> Resume.Hands(log[p]) != Some(chain)
    ensures Resume.TipOf(log, |log|) != chain
  {
    hide Resume.Hands;
    if Resume.TipOf(log, |log|) == chain {
      var p := TipIsHanded(log, |log|);
    }
  }

  /** The last of these hashes is the chain, or there is none and the chain is still empty. */
  predicate LastIs(hashes: seq<Option<Hash>>, chain: Hash) {
    if hashes == [] then chain == ""
    else
      var last := hashes[|hashes| - 1];
      if last.Some? then last.value == chain else LastIs(hashes[..|hashes| - 1], chain)
  }

  lemma {:induction false} TipIsLast(records: seq<Record>, hashes: seq<Option<Hash>>, chain: Hash)
    requires |hashes| == |records| && forall p :: 0 <= p < |records| ==> Resume.Hands(records[p]) == hashes[p]
    ensures Resume.TipOf(records, |records|) == chain <==> LastIs(hashes, chain)
  {
    hide Resume.Hands;
    if hashes == [] {
    } else {
      var n := |records| - 1;
      TipIsLast(records[..n], hashes[..n], chain);
      assert records[..n] + [records[n]] == records;
      Resume.TipOfPrefix(records[..n], [records[n]], n);
    }
  }

  // ------------------------------------------------------------------ one answer

  lemma {:induction false} LastAccepted(cfg: Config, chain: Hash, events: seq<Event>, now: int, n: nat) returns (j: nat)
    requires n <= |events| && exists k :: 0 <= k < n && Accepts(cfg, events, now, k)
    ensures j < n && Accepts(cfg, events, now, j) && forall k :: j < k < n ==> !Accepts(cfg, events, now, k)
    ensures ChainAfter(cfg, chain, events, now, n) == ChainAfter(cfg, chain, events, now, j + 1)
  {
    hide Accepts;
    if Accepts(cfg, events, now, n - 1) {
      j := n - 1;
    } else {
      j := LastAccepted(cfg, chain, events, now, n - 1);
    }
  }

  lemma {:induction false} NoneAccepted(cfg: Config, chain: Hash, events: seq<Event>, now: int, n: nat)
    requires n <= |events| && forall k :: 0 <= k < n ==> !Accepts(cfg, events, now, k)
    ensures ChainAfter(cfg, chain, events, now, n) == chain
  {
    hide Accepts;
    if n == 0 {
    } else {
      NoneAccepted(cfg, chain, events, now, n - 1);
    }
  }

  /** The hash the record of event `j` will hand on: what the cached verdict paired with it
      carries, or for an accepted event of a fresh answer its link of the chain. */
  function HandedTo(cfg: Config, m: Service, req: Request, j: nat): Option<Hash>
    requires j < |req.events|
  {
    if Gate(req).Some? then None
    else if Cached(cfg, m, req).Some? then Carried(Paired(req.events, Cached(cfg, m, req).value, j))
    else if Accepts(cfg, req.events, req.now, j) then Some(ChainAfter(cfg, m.chain, req.events, req.now, j + 1))
    else None
  }

  /** The service's tip after the request. */
  function TipAhead(cfg: Config, m: Service, req: Request): Hash {
    if Gate(req).Some? || Cached(cfg, m, req).Some? then m.chain
    else ChainAfter(cfg, m.chain, req.events, req.now, |req.events|)
  }

  lemma AnsweredChain(cfg: Config, m: Service, friction: seq<string>, events: seq<Event>, key: Option<string>, w: World, i: nat)
    ensures var req := RequestOf(events, KeyUsed(key, w, i), friction, w, i);
      Deliver(cfg, m, Mock, friction, events, key, w, i).0.chain == TipAhead(cfg, m, req)
  {
    hide Gate, Replays, ChainAfter, Answer, Slot;
  }

  lemma NothingPaired(events: seq<Event>, j: nat)
    requires j < |events|
    ensures Paired(events, [], j) == None
  {
    NoAnswers(KeyOf(events[j]));
  }

  lemma FreshHands(cfg: Config, chain: Hash, events: seq<Event>, now: int, j: nat)
    requires Resume.Hashes(cfg) && j < |events|
    ensures Carried(Paired(events, Verdicts(cfg, chain, events, now), j))
      == if Accepts(cfg, events, now, j) then Some(ChainAfter(cfg, chain, events, now, j + 1)) else None
  {
    hide ErrorsAt, ChainAfter, Paired, Accepts;
    var own := Verdicts(cfg, chain, events, now);
    assert Own(events, own);
    RequestOrderIsRight(events, own);
    assert Paired(events, own, j) == Some(own[j]);
    if Accepts(cfg, events, now, j) {
      Resume.AcceptedHashes(cfg, chain, events, now, j);
    }
  }

  lemma NothingCarried()
    ensures Carried(None) == None
  {}

  /** Fresh, replayed or raised: the verdict paired with event `j` carries just that hash. */
  lemma AnsweredHands(cfg: Config, m: Service, friction: seq<string>, events: seq<Event>, key: Option<string>, w: World, i: nat, j: nat)
    requires Resume.Hashes(cfg) && j < |events|
    ensures var req := RequestOf(events, KeyUsed(key, w, i), friction, w, i);
      Carried(Paired(events, ReplyEvents(Deliver(cfg, m, Mock, friction, events, key, w, i).1), j)) == HandedTo(cfg, m, req, j)
  {
    hide Gate, Replays, Verdicts, ChainAfter, AcceptedAmong, StaleAmong, Paired, Accepts, Carried, Slot;
    var req := RequestOf(events, KeyUsed(key, w, i), friction, w, i);
    if Gate(req).Some? {
      NothingPaired(events, j);
      assert Carried(None) == None by { NothingCarried(); }
    } else if Replays(cfg, m, req) {
      ReplayedEntry(cfg, m, req);
    } else {
      FreshHands(cfg, m.chain, events, req.now, j);
    }
  }

  // ------------------------------------------------------------------ one operation

  predicate Right(lab: Lab) {
    Resume.TipOf(lab.log, |lab.log|) == lab.service.chain
  }

  /** The request is answered afresh and an event of it is accepted. */
  predicate AcceptsSome(cfg: Config, w: World, lab: Lab, op: Op, i: nat) {
    var req := RequestFor(w, lab, op, i);
    && Gate(req).None? && Cached(cfg, lab.service, req).None?
    && exists j :: 0 <= j < |req.events| && Accepts(cfg, req.events, req.now, j)
  }

  /** A record of the group whose event is accepted. */
  predicate Retakes(cfg: Config, w: World, lab: Lab, op: Op, i: nat, p: nat)
    requires op.RetryOne? && p < |lab.log|
  {
    var rank := |Group(lab.log, p, op.wanted, op.key)|;
    var req := RequestFor(w, lab, op, i);
    InGroup(lab.log[p], op.wanted, op.key) && rank < |req.events| && Accepts(cfg, req.events, req.now, rank)
  }

  /** A record the retry does not send, behind all that get accepted, hands a hash on. */
  predicate OvertakenBy(cfg: Config, w: World, lab: Lab, op: Op, i: nat, q: nat)
    requires op.RetryOne? && q < |lab.log|
  {
    && !InGroup(lab.log[q], op.wanted, op.key) && Resume.Hands(lab.log[q]).Some?
    && forall p :: q < p < |lab.log| ==> !Retakes(cfg, w, lab, op, i, p)
  }

  predicate Overtaken(cfg: Config, w: World, lab: Lab, op: Op, i: nat) {
    op.RetryOne? && exists q :: 0 <= q < |lab.log| && OvertakenBy(cfg, w, lab, op, i, q)
  }

  /** The tip a fresh answer leads to is not in the log already. */
  predicate NewTip(cfg: Config, w: World, lab: Lab, op: Op, i: nat) {
    AcceptsSome(cfg, w, lab, op, i) ==> forall p :: 0 <= p < |lab.log| ==>
      Resume.Hands(lab.log[p]) != Some(TipAhead(cfg, lab.service, RequestFor(w, lab, op, i)))
  }

  /** What each record of the log hands on once the operation is committed. */
  function HandsAfter(cfg: Config, w: World, lab: Lab, op: Op, i: nat): (hashes: seq<Option<Hash>>) {
    var req := RequestFor(w, lab, op, i);
    match op
    case Import(_, _, _, _, _) =>
      seq(|lab.log|, p requires 0 <= p < |lab.log| => Resume.Hands(lab.log[p]))
      + seq(|req.events|, j requires 0 <= j < |req.events| => HandedTo(cfg, lab.service, req, j))
    case RetryOne(wanted, key, _, _) =>
      seq(|lab.log|, p requires 0 <= p < |lab.log| =>
        var rank := |Group(lab.log, p, wanted, key)|;
        if InGroup(lab.log[p], wanted, key) && rank < |req.events| then HandedTo(cfg, lab.service, req, rank)
        else Resume.Hands(lab.log[p]))
  }

  /** Without a newly accepted event the commit still rewrites hashes: it is of a replayed
      answer, or a record of the group handed a hash on. */
  predicate Restamps(cfg: Config, w: World, lab: Lab, op: Op, i: nat) {
    || Cached(cfg, lab.service, RequestFor(w, lab, op, i)).Some?
    || (op.RetryOne? && exists p :: 0 <= p < |lab.log| && InGroup(lab.log[p], op.wanted, op.key) && Resume.Hands(lab.log[p]).Some?)
  }

  /** Whether the tip read back is right after the operation, told from the state before it. */
  predicate Recovers(cfg: Config, w: World, lab: Lab, op: Op, i: nat, before: bool) {
    if AcceptsSome(cfg, w, lab, op, i) then op.committed && !Overtaken(cfg, w, lab, op, i)
    else if op.committed && Restamps(cfg, w, lab, op, i) then LastIs(HandsAfter(cfg, w, lab, op, i), lab.service.chain)
    else before
  }

  /** The tip after a request: that of its last accepted event, or the one before it. */
  lemma TipAfter(cfg: Config, m: Service, req: Request) returns (j: nat)
    requires Resume.Hashes(cfg) && Gate(req).None? && Cached(cfg, m, req).None?
    requires exists k :: 0 <= k < |req.events| && Accepts(cfg, req.events, req.now, k)
    ensures j < |req.events| && HandedTo(cfg, m, req, j) == Some(TipAhead(cfg, m, req)) && TipAhead(cfg, m, req) != ""
    ensures Accepts(cfg, req.events, req.now, j) && forall k :: j < k < |req.events| ==> !Accepts(cfg, req.events, req.now, k)
    ensures forall k :: j < k < |req.events| ==> HandedTo(cfg, m, req, k).None?
  {
    hide Accepts, Gate, Cached;
    j := LastAccepted(cfg, m.chain, req.events, req.now, |req.events|);
    Resume.AcceptedHashes(cfg, m.chain, req.events, req.now, j);
  }

  lemma TipStays(cfg: Config, w: World, lab: Lab, op: Op, i: nat)
    requires !AcceptsSome(cfg, w, lab, op, i)
    ensures var req := RequestFor(w, lab, op, i);
      && TipAhead(cfg, lab.service, req) == lab.service.chain
      && (Cached(cfg, lab.service, req).None? ==> forall j :: 0 <= j < |req.events| ==> HandedTo(cfg, lab.service, req, j).None?)
  {
    hide Accepts, Gate, Cached;
    var req := RequestFor(w, lab, op, i);
    if Gate(req).None? && Cached(cfg, lab.service, req).None? {
      NoneAccepted(cfg, lab.service.chain, req.events, req.now, |req.events|);
    }
  }

  // ------------------------------------------------------------------ an import

  lemma ImportHands(ids: seq<nat>, events: seq<Event>, parents: seq<seq<string>>, outcome: Outcome, j: nat)
    requires |ids| == |parents| == |events| && j < |events|
    ensures Resume.Hands(RecordsFor(ids, events, parents, Mock, outcome)[j]) == Carried(Paired(events, ReplyEvents(outcome), j))
  {
    hide Paired, ErrorOf, StatusOf;
  }

  lemma ImportCommits(cfg: Config, w: World, lab: Lab, op: Op, i: nat)
    requires op.Import? && Usable(op) && op.committed && Resume.Hashes(cfg)
    ensures var next := Step(cfg, w, lab, op, i); var hashes := HandsAfter(cfg, w, lab, op, i);
      |next.log| == |hashes| && forall p :: 0 <= p < |hashes| ==> Resume.Hands(next.log[p]) == hashes[p]
  {
    hide Deliver, Gate, Accepted, RecordsFor, Resume.Hands, HandedTo, Paired, Carried;
    var log := lab.log;
    var outcome := Deliver(cfg, lab.service, Mock, op.friction, op.events, None, w, i).1;
    var records := RecordsFor(op.ids, op.events, op.parents, Mock, outcome);
    forall j: nat | j < |op.events| ensures Resume.Hands(records[j]) == HandedTo(cfg, lab.service, RequestFor(w, lab, op, i), j) {
      AnsweredHands(cfg, lab.service, op.friction, op.events, None, w, i, j);
      ImportHands(op.ids, op.events, op.parents, outcome, j);
    }
  }

  /** A committed import that got an event accepted hands the new tip on. */
  lemma AppendRecovers(cfg: Config, w: World, lab: Lab, op: Op, i: nat, log': seq<Record>)
    requires op.Import? && Resume.Hashes(cfg) && AcceptsSome(cfg, w, lab, op, i)
    requires var hashes := HandsAfter(cfg, w, lab, op, i);
      |log'| == |hashes| && forall p :: 0 <= p < |hashes| ==> Resume.Hands(log'[p]) == hashes[p]
    ensures Resume.TipOf(log', |log'|) == TipAhead(cfg, lab.service, RequestFor(w, lab, op, i))
  {
    hide Accepts, Gate, Cached, Resume.Hands, HandedTo, TipAhead;
    var j := TipAfter(cfg, lab.service, RequestFor(w, lab, op, i));
    TipAt(log', |log'|, |lab.log| + j);
  }

  // ------------------------------------------------------------------ a retry

  lemma RetriedHands(log: seq<Record>, ids: set<nat>, key: Option<string>, outcome: Outcome, p: nat)
    requires p < |log| && InGroup(log[p], ids, key)
    ensures var rank := |Group(log, p, ids, key)|; var events := EventsIn(Group(log, |log|, ids, key));
      rank < |events| && Resume.Hands(Patched(log, ids, key, outcome)[p]) == Carried(Paired(events, ReplyEvents(outcome), rank))
  {
    hide Paired, ErrorOf, StatusOf, Patched, Group, InGroup;
    RetryRuns.PatchedAt(log, ids, key, outcome, p);
  }

  lemma RetryCommits(cfg: Config, w: World, lab: Lab, op: Op, i: nat)
    requires op.RetryOne? && op.committed && Resume.Hashes(cfg)
    ensures var next := Step(cfg, w, lab, op, i); var hashes := HandsAfter(cfg, w, lab, op, i);
      |next.log| == |hashes| && forall p :: 0 <= p < |hashes| ==> Resume.Hands(next.log[p]) == hashes[p]
  {
    hide Deliver, Gate, Accepted, Patched, Resume.Hands, HandedTo, Paired, Carried, Group, InGroup, Reuses, KeyUsed;
    var log := lab.log;
    var events := EventsIn(Group(log, |log|, op.wanted, op.key));
    var asked := KeyAsked(lab, op);
    var req := RequestFor(w, lab, op, i);
    var outcome := Deliver(cfg, lab.service, Mock, op.friction, events, asked, w, i).1;
    var log' := Patched(log, op.wanted, op.key, outcome);
    var hashes := HandsAfter(cfg, w, lab, op, i);
    forall p: nat | p < |log| ensures Resume.Hands(log'[p]) == hashes[p] {
      if InGroup(log[p], op.wanted, op.key) {
        RetriedHands(log, op.wanted, op.key, outcome, p);
        AnsweredHands(cfg, lab.service, op.friction, events, asked, w, i, |Group(log, p, op.wanted, op.key)|);
      } else {
        PatchedElsewhere(log, op.wanted, op.key, outcome, p);
      }
    }
  }

  lemma GroupBehind(log: seq<Record>, ids: set<nat>, key: Option<string>, p: nat, q: nat)
    requires p < q < |log| && InGroup(log[p], ids, key)
    ensures |Group(log, p, ids, key)| < |Group(log, q, ids, key)|
  {
    RetryRuns.GroupAt(log, q, p, ids, key);
  }

  /** Where the last accepted record of the group is in the log. */
  lemma LastRetaken(cfg: Config, w: World, lab: Lab, op: Op, i: nat) returns (p: nat)
    requires op.RetryOne? && Resume.Hashes(cfg) && AcceptsSome(cfg, w, lab, op, i)
    ensures p < |lab.log|
    ensures var req := RequestFor(w, lab, op, i); var rank := |Group(lab.log, p, op.wanted, op.key)|;
      && Retakes(cfg, w, lab, op, i, p)
      && rank < |req.events| && HandedTo(cfg, lab.service, req, rank) == Some(TipAhead(cfg, lab.service, req))
    ensures forall q :: p < q < |lab.log| ==> !Retakes(cfg, w, lab, op, i, q)
  {
    hide Accepts, Gate, Cached, HandedTo, TipAhead, Group, InGroup;
    var req := RequestFor(w, lab, op, i);
    var j := TipAfter(cfg, lab.service, req);
    p := WhenceAt(lab.log, |lab.log|, op.wanted, op.key, j);
    forall q: nat | p < q < |lab.log| ensures !Retakes(cfg, w, lab, op, i, q) {
      GroupBehind(lab.log, op.wanted, op.key, p, q);
    }
  }

  /** What a fresh answer's records hand on, in terms of which of them are accepted. */
  lemma NotRetaken(cfg: Config, w: World, lab: Lab, op: Op, i: nat, q: nat)
    requires op.RetryOne? && q < |lab.log| && AcceptsSome(cfg, w, lab, op, i) && !Retakes(cfg, w, lab, op, i, q)
    ensures HandsAfter(cfg, w, lab, op, i)[q]
      == if InGroup(lab.log[q], op.wanted, op.key) then None else Resume.Hands(lab.log[q])
  {
    hide Accepts, Gate, Cached, Resume.Hands, InGroup;
    if InGroup(lab.log[q], op.wanted, op.key) {
      RetryRuns.GroupAt(lab.log, |lab.log|, q, op.wanted, op.key);
    }
  }

  lemma RetakenIsInGroup(cfg: Config, w: World, lab: Lab, op: Op, i: nat, p: nat)
    requires op.RetryOne? && p < |lab.log| && Retakes(cfg, w, lab, op, i, p)
    ensures InGroup(lab.log[p], op.wanted, op.key)
  {}

  /** The log hands on the new tip if and only if no record behind the last one taken again
      hands a hash on. */
  lemma PatchRecoversIff(cfg: Config, w: World, lab: Lab, op: Op, i: nat, log': seq<Record>)
    requires op.RetryOne? && Resume.Hashes(cfg) && AcceptsSome(cfg, w, lab, op, i) && NewTip(cfg, w, lab, op, i)
    requires var hashes := HandsAfter(cfg, w, lab, op, i);
      |log'| == |hashes| && forall p :: 0 <= p < |hashes| ==> Resume.Hands(log'[p]) == hashes[p]
    ensures Resume.TipOf(log', |log'|) == TipAhead(cfg, lab.service, RequestFor(w, lab, op, i))
      <==> !Overtaken(cfg, w, lab, op, i)
  {
    hide Gate, Group, InGroup, Resume.Hands, Accepts, Cached, HandedTo, TipAhead, AcceptsSome, Retakes;
    var log := lab.log;
    var p := LastRetaken(cfg, w, lab, op, i);
    assert InGroup(log[p], op.wanted, op.key) by { RetakenIsInGroup(cfg, w, lab, op, i, p); }
    if Overtaken(cfg, w, lab, op, i) {
      var q :| 0 <= q < |log| && OvertakenBy(cfg, w, lab, op, i, q);
      assert Resume.Hands(log'[q]) == Resume.Hands(log[q]);
      var r := TipBehind(log', |log'|, q);
      assert p < q;
      NotRetaken(cfg, w, lab, op, i, r);
    } else {
      forall q: nat | p < q < |log'| ensures Resume.Hands(log'[q]).None? {
        NotRetaken(cfg, w, lab, op, i, q);
        assert !OvertakenBy(cfg, w, lab, op, i, q);
      }
      TipAt(log', |log'|, p);
    }
  }

  // ------------------------------------------------------------------ both

  lemma CommitHands(cfg: Config, w: World, lab: Lab, op: Op, i: nat)
    requires Usable(op) && op.committed && Resume.Hashes(cfg)
    ensures var next := Step(cfg, w, lab, op, i); var hashes := HandsAfter(cfg, w, lab, op, i);
      |next.log| == |hashes| && forall p :: 0 <= p < |hashes| ==> Resume.Hands(next.log[p]) == hashes[p]
  {
    hide *;
    if op.Import? {
      ImportCommits(cfg, w, lab, op, i);
    } else {
      RetryCommits(cfg, w, lab, op, i);
    }
  }

  lemma StepChain(cfg: Config, w: World, lab: Lab, op: Op, i: nat)
    requires Usable(op)
    ensures var next := Step(cfg, w, lab, op, i);
      && next.service.chain == TipAhead(cfg, lab.service, RequestFor(w, lab, op, i))
      && (!op.committed ==> next.log == lab.log)
  {
    hide Deliver, Gate, Accepted, Patched, RecordsFor, TipAhead, Group, Reuses, KeyUsed;
    AnsweredChain(cfg, lab.service, op.friction, RetryExact.EventsOf(lab, op), KeyAsked(lab, op), w, i);
  }

  /** A commit that restamps nothing leaves the tip it hands on as it was. */
  lemma QuietCommit(cfg: Config, w: World, lab: Lab, op: Op, i: nat, log': seq<Record>)
    requires !AcceptsSome(cfg, w, lab, op, i) && !Restamps(cfg, w, lab, op, i)
    requires var hashes := HandsAfter(cfg, w, lab, op, i);
      |log'| == |hashes| && forall p :: 0 <= p < |hashes| ==> Resume.Hands(log'[p]) == hashes[p]
    ensures Resume.TipOf(log', |log'|) == Resume.TipOf(lab.log, |lab.log|)
  {
    TipStays(cfg, w, lab, op, i);
    hide HandedTo, Resume.Hands, Resume.TipOf, Group, InGroup, Cached, AcceptsSome, TipAhead;
    if op.Import? {
      var n := |lab.log|;
      assert log' == log'[..n] + log'[n..];
      Resume.TipIgnores(log'[..n], log'[n..], |log'[n..]|);
      TipSame(lab.log, log'[..n], n);
    } else {
      TipSame(lab.log, log', |lab.log|);
    }
  }

  lemma TipIsNew(cfg: Config, w: World, lab: Lab, op: Op, i: nat)
    requires Resume.Hashes(cfg) && AcceptsSome(cfg, w, lab, op, i) && NewTip(cfg, w, lab, op, i)
    ensures Resume.TipOf(lab.log, |lab.log|) != TipAhead(cfg, lab.service, RequestFor(w, lab, op, i))
  {
    hide Accepts, Gate, Cached, Resume.Hands, Resume.TipOf, HandedTo, TipAhead;
    var j := TipAfter(cfg, lab.service, RequestFor(w, lab, op, i));
    NewTipIsMissed(lab.log, TipAhead(cfg, lab.service, RequestFor(w, lab, op, i)));
  }

  lemma NotOvertaken(cfg: Config, w: World, lab: Lab, op: Op, i: nat)
    requires op.Import?
    ensures !Overtaken(cfg, w, lab, op, i)
  {}

  /** One import or retry, raised, fresh or replayed, committed or dropped: whether the tip
      read back is right afterwards. */
  lemma StepRightIff(cfg: Config, w: World, lab: Lab, op: Op, i: nat)
    requires Usable(op) && Resume.Hashes(cfg) && NewTip(cfg, w, lab, op, i)
    ensures Right(Step(cfg, w, lab, op, i)) <==> Recovers(cfg, w, lab, op, i, Right(lab))
  {
    hide Step, HandsAfter, Restamps, Overtaken, Resume.Hands, Resume.TipOf, TipAhead, RequestFor, AcceptsSome, LastIs, Resume.Hashes;
    hide NewTip;
    var next := Step(cfg, w, lab, op, i);
    StepChain(cfg, w, lab, op, i);
    if op.committed {
      CommitHands(cfg, w, lab, op, i);
    }
    if AcceptsSome(cfg, w, lab, op, i) {
      if !op.committed {
        TipIsNew(cfg, w, lab, op, i);
      } else if op.Import? {
        AppendRecovers(cfg, w, lab, op, i, next.log);
        NotOvertaken(cfg, w, lab, op, i);
      } else {
        PatchRecoversIff(cfg, w, lab, op, i, next.log);
      }
    } else {
      TipStays(cfg, w, lab, op, i);
      if op.committed {
        if Restamps(cfg, w, lab, op, i) {
          TipIsLast(next.log, HandsAfter(cfg, w, lab, op, i), lab.service.chain);
        } else {
          QuietCommit(cfg, w, lab, op, i, next.log);
        }
      }
    }
  }

  // ------------------------------------------------------------------ no tip comes twice

  /** The hash does not collide: what is linked tells which tip it was linked to. */
  ghost predicate OneWay(cfg: Config) {
    Resume.Hashes(cfg) && forall h, x, g, y :: cfg.link(h, x) == cfg.link(g, y) ==> h == g
  }

  ghost predicate LinkAt(cfg: Config, tips: seq<Hash>, k: nat)
    requires k + 1 < |tips|
  {
    exists x :: tips[k + 1] == cfg.link(tips[k], x)
  }

  /** The tips the service has had, from the first. */
  ghost predicate Chained(cfg: Config, tips: seq<Hash>) {
    tips != [] && tips[0] == "" && forall k: nat :: k + 1 < |tips| ==> LinkAt(cfg, tips, k)
  }

  lemma {:induction false} TipsDiffer(cfg: Config, tips: seq<Hash>, i: nat, j: nat)
    requires OneWay(cfg) && Chained(cfg, tips) && i < j < |tips|
    ensures tips[i] != tips[j]
  {
    assert LinkAt(cfg, tips, j - 1);
    if i == 0 {
    } else {
      assert LinkAt(cfg, tips, i - 1);
      TipsDiffer(cfg, tips, i - 1, j - 1);
    }
  }

  lemma TipsGrow(cfg: Config, tips: seq<Hash>, x: Hash)
    requires Chained(cfg, tips)
    ensures Chained(cfg, tips + [cfg.link(tips[|tips| - 1], x)])
  {
    var more := tips + [cfg.link(tips[|tips| - 1], x)];
    forall k: nat | k + 1 < |more| ensures LinkAt(cfg, more, k) {
      if k + 1 < |tips| {
        assert LinkAt(cfg, tips, k);
        var y :| tips[k + 1] == cfg.link(tips[k], y);
        assert more[k + 1] == cfg.link(more[k], y);
      } else {
        assert more[k + 1] == cfg.link(more[k], x);
      }
    }
  }

  predicate AnyAccepted(cfg: Config, events: seq<Event>, now: int, n: nat)
    requires n <= |events|
  {
    exists k :: 0 <= k < n && Accepts(cfg, events, now, k)
  }

  lemma NotEmpty(cfg: Config, tips: seq<Hash>)
    requires Chained(cfg, tips)
    ensures tips != []
  {}

  /** The tips over a fresh answer: one more for each event accepted. */
  lemma {:induction false} TipsOver(cfg: Config, tips: seq<Hash>, events: seq<Event>, now: int, n: nat) returns (more: seq<Hash>)
    requires Chained(cfg, tips) && n <= |events|
    ensures Chained(cfg, more) && tips <= more
    ensures more[|more| - 1] == ChainAfter(cfg, tips[|tips| - 1], events, now, n)
    ensures var chain := tips[|tips| - 1]; forall k :: 0 <= k <= n ==> ChainAfter(cfg, chain, events, now, k) in more
    ensures AnyAccepted(cfg, events, now, n) ==> |tips| < |more|
  {
    hide Accepts, Chained;
    if n == 0 {
      more := tips;
      assert Chained(cfg, more);
      NotEmpty(cfg, tips);
    } else {
      var before := TipsOver(cfg, tips, events, now, n - 1);
      NotEmpty(cfg, tips);
      if Accepts(cfg, events, now, n - 1) {
        more := before + [cfg.link(before[|before| - 1], cfg.digest(events[n - 1]))];
        TipsGrow(cfg, before, cfg.digest(events[n - 1]));
      } else {
        more := before;
      }
    }
  }

  ghost predicate Known(hash: Option<Hash>, tips: seq<Hash>) {
    hash.Some? ==> hash.value in tips
  }

  ghost predicate EntryKnown(e: Entry, tips: seq<Hash>) {
    forall j :: 0 <= j < |e.response.events| ==> Known(Carried(Some(e.response.events[j])), tips)
  }

  /** All the hashes about are tips the service has had, and its own is the last of them. */
  ghost predicate Traced(cfg: Config, lab: Lab, tips: seq<Hash>) {
    && Chained(cfg, tips) && tips[|tips| - 1] == lab.service.chain
    && (forall p :: 0 <= p < |lab.log| ==> Known(Resume.Hands(lab.log[p]), tips))
    && (forall s :: 0 <= s < |lab.service.cache| ==> EntryKnown(lab.service.cache[s], tips))
  }

  lemma PairedIsThere(events: seq<Event>, answers: seq<Verdict>, j: nat)
    requires j < |events| && Paired(events, answers, j).Some?
    ensures Paired(events, answers, j).value in answers
  {}

  /** What a request makes the records hand on is known once its accepted events are. */
  lemma HandedIsKnown(cfg: Config, lab: Lab, req: Request, tips: seq<Hash>, more: seq<Hash>, j: nat)
    requires Traced(cfg, lab, tips) && tips <= more && j < |req.events|
    requires Gate(req).None? && Cached(cfg, lab.service, req).None? ==>
      forall k :: 0 <= k <= |req.events| ==> ChainAfter(cfg, lab.service.chain, req.events, req.now, k) in more
    ensures Known(HandedTo(cfg, lab.service, req, j), more)
  {
    hide Gate, Accepts, Replays, Paired, Chained, Resume.Hands, Slot, ChainAfter;
    if Gate(req).None? && Cached(cfg, lab.service, req).Some? {
      ReplayedEntry(cfg, lab.service, req);
      var e := lab.service.cache[Slot(lab.service.cache, req.key.value)];
      assert EntryKnown(e, tips);
      if Paired(req.events, e.response.events, j).Some? {
        PairedIsThere(req.events, e.response.events, j);
      }
    }
  }

  lemma AnswerKnown(cfg: Config, chain: Hash, events: seq<Event>, now: int, key: string, more: seq<Hash>)
    requires forall k :: 0 <= k <= |events| ==> ChainAfter(cfg, chain, events, now, k) in more
    ensures EntryKnown(Entry(key, Answer(cfg, chain, events, now), now), more)
  {
    hide ErrorsAt, ChainAfter, AcceptedAmong, StaleAmong;
  }

  lemma KnownMore(e: Entry, tips: seq<Hash>, more: seq<Hash>)
    requires EntryKnown(e, tips) && tips <= more
    ensures EntryKnown(e, more)
  {
    hide Carried;
  }

  lemma ForgetPart(cache: seq<Entry>, key: string, e: Entry)
    requires e in Forget(cache, key)
    ensures e in cache
  {
    hide Slot, Holds;
  }

  /** What the cache holds after a request: what it held, and perhaps the fresh answer. */
  lemma EntryFrom(cfg: Config, m: Service, req: Request, e: Entry)
    requires e in Ingest(cfg, m, req).0.cache && e !in m.cache
    ensures Gate(req).None? && Cached(cfg, m, req).None? && Keyed(req)
    ensures e == Entry(req.key.value, Answer(cfg, m.chain, req.events, req.now), req.now)
  {
    hide Gate, Answer, ChainAfter, Forget, Slot;
    if Keyed(req) && e in Forget(m.cache, req.key.value) {
      ForgetPart(m.cache, req.key.value, e);
    }
  }

  lemma CacheStaysKnown(cfg: Config, m: Service, req: Request, tips: seq<Hash>, more: seq<Hash>, e: Entry)
    requires (forall s :: 0 <= s < |m.cache| ==> EntryKnown(m.cache[s], tips)) && tips <= more
    requires Gate(req).None? && Cached(cfg, m, req).None? ==>
      forall k :: 0 <= k <= |req.events| ==> ChainAfter(cfg, m.chain, req.events, req.now, k) in more
    requires e in Ingest(cfg, m, req).0.cache
    ensures EntryKnown(e, more)
  {
    hide Gate, Answer, Replays, ChainAfter, EntryKnown, Cached, Ingest;
    if e in m.cache {
      var s :| 0 <= s < |m.cache| && m.cache[s] == e;
      KnownMore(e, tips, more);
    } else {
      EntryFrom(cfg, m, req, e);
      AnswerKnown(cfg, m.chain, req.events, req.now, req.key.value, more);
    }
  }

  /** The tips after a request: those before it, and one for each event newly accepted. */
  lemma TipsAfter(cfg: Config, lab: Lab, req: Request, tips: seq<Hash>) returns (more: seq<Hash>)
    requires Traced(cfg, lab, tips)
    ensures Chained(cfg, more) && tips <= more && more[|more| - 1] == TipAhead(cfg, lab.service, req)
    ensures Gate(req).None? && Cached(cfg, lab.service, req).None? ==>
      && (forall k :: 0 <= k <= |req.events| ==> ChainAfter(cfg, lab.service.chain, req.events, req.now, k) in more)
      && (AnyAccepted(cfg, req.events, req.now, |req.events|) ==> |tips| < |more|)
  {
    hide Gate, Cached, Accepts, AnyAccepted, ChainAfter;
    if Gate(req).None? && Cached(cfg, lab.service, req).None? {
      more := TipsOver(cfg, tips, req.events, req.now, |req.events|);
    } else {
      more := tips;
    }
  }

  /** A fresh answer that accepts something leads to a tip no record hands on. */
  lemma TracedIsNew(cfg: Config, w: World, lab: Lab, op: Op, i: nat, tips: seq<Hash>)
    requires OneWay(cfg) && Traced(cfg, lab, tips)
    ensures NewTip(cfg, w, lab, op, i)
  {
    hide Gate, Cached, Accepts, ChainAfter, Resume.Hands, TipAhead, RequestFor, OneWay, EntryKnown;
    var req := RequestFor(w, lab, op, i);
    var more := TipsAfter(cfg, lab, req, tips);
    if AcceptsSome(cfg, w, lab, op, i) {
      forall p | 0 <= p < |lab.log| ensures Resume.Hands(lab.log[p]) != Some(TipAhead(cfg, lab.service, req)) {
        assert Known(Resume.Hands(lab.log[p]), tips);
        if Resume.Hands(lab.log[p]).Some? {
          var k: nat :| k < |tips| && tips[k] == Resume.Hands(lab.log[p]).value;
          TipsDiffer(cfg, more, k, |more| - 1);
        }
      }
    }
  }

  lemma StepService(cfg: Config, w: World, lab: Lab, op: Op, i: nat)
    requires Usable(op)
    ensures Step(cfg, w, lab, op, i).service == Ingest(cfg, lab.service, RequestFor(w, lab, op, i)).0
  {
    hide Ingest, Accepted, Patched, RecordsFor, Group, Reuses;
  }

  lemma HandsAfterKnown(cfg: Config, w: World, lab: Lab, op: Op, i: nat, tips: seq<Hash>, more: seq<Hash>, p: nat)
    requires Traced(cfg, lab, tips) && tips <= more && p < |HandsAfter(cfg, w, lab, op, i)|
    requires var req := RequestFor(w, lab, op, i);
      forall j :: 0 <= j < |req.events| ==> Known(HandedTo(cfg, lab.service, req, j), more)
    ensures Known(HandsAfter(cfg, w, lab, op, i)[p], more)
  {
    hide HandedTo, Resume.Hands, InGroup, RequestFor, EntryKnown, Chained;
    if p < |lab.log| {
      assert Known(Resume.Hands(lab.log[p]), tips);
    }
  }

  lemma StepTraced(cfg: Config, w: World, lab: Lab, op: Op, i: nat, tips: seq<Hash>) returns (more: seq<Hash>)
    requires Usable(op) && Resume.Hashes(cfg) && Traced(cfg, lab, tips)
    ensures Traced(cfg, Step(cfg, w, lab, op, i), more)
  {
    hide Step, Ingest, Gate, Cached, ChainAfter, HandedTo, Resume.Hands, TipAhead, RequestFor, HandsAfter, EntryKnown, Chained;
    hide AnyAccepted, Resume.Hashes;
    var req := RequestFor(w, lab, op, i);
    var next := Step(cfg, w, lab, op, i);
    more := TipsAfter(cfg, lab, req, tips);
    StepChain(cfg, w, lab, op, i);
    StepService(cfg, w, lab, op, i);
    NotEmpty(cfg, more);
    forall j: nat | j < |req.events| ensures Known(HandedTo(cfg, lab.service, req, j), more) {
      HandedIsKnown(cfg, lab, req, tips, more, j);
    }
    forall s: nat | s < |next.service.cache| ensures EntryKnown(next.service.cache[s], more) {
      CacheStaysKnown(cfg, lab.service, req, tips, more, next.service.cache[s]);
    }
    if op.committed {
      CommitHands(cfg, w, lab, op, i);
      forall p: nat | p < |next.log| ensures Known(Resume.Hands(next.log[p]), more) {
        HandsAfterKnown(cfg, w, lab, op, i, tips, more, p);
      }
    } else {
      forall p: nat | p < |next.log| ensures Known(Resume.Hands(next.log[p]), more) {
        assert Known(Resume.Hands(lab.log[p]), tips);
      }
    }
  }

  // ------------------------------------------------------------------ whole runs

  /** Whether the tip read back is right after the run: after the last operation that got an
      event accepted afresh, or the last commit since then that restamped hashes. */
  predicate Recovered(cfg: Config, w: World, ops: seq<Op>)
    requires AllUsable(ops)
    decreases |ops|
  {
    ops == [] ||
      var n := |ops| - 1;
      Recovers(cfg, w, Play(cfg, w, ops[..n]), ops[n], n, Recovered(cfg, w, ops[..n]))
  }

  lemma {:induction false} RunIsTraced(cfg: Config, w: World, ops: seq<Op>) returns (tips: seq<Hash>)
    requires AllUsable(ops) && Resume.Hashes(cfg)
    ensures Traced(cfg, Play(cfg, w, ops), tips)
    decreases |ops|
  {
    if ops == [] {
      tips := [""];
    } else {
      hide Step, Traced;
      var n := |ops| - 1;
      var before := RunIsTraced(cfg, w, ops[..n]);
      tips := StepTraced(cfg, w, Play(cfg, w, ops[..n]), ops[n], n, before);
    }
  }

  /** Over any run of imports and retries, raised, fresh or replayed, committed or dropped: a
      restarted mock finds its own tip in the log if and only if the last operation that got an
      event accepted afresh was committed and left no hash behind the records it got accepted,
      or a later commit put the newest hash of the log right. */
  lemma {:induction false} TipRecoveredIff(cfg: Config, w: World, ops: seq<Op>)
    requires AllUsable(ops) && OneWay(cfg)
    ensures Right(Play(cfg, w, ops)) <==> Recovered(cfg, w, ops)
    decreases |ops|
  {
    if ops == [] {
    } else {
      hide Step, Right, Recovers, NewTip, Traced;
      var n := |ops| - 1;
      TipRecoveredIff(cfg, w, ops[..n]);
      var tips := RunIsTraced(cfg, w, ops[..n]);
      TracedIsNew(cfg, w, Play(cfg, w, ops[..n]), ops[n], n, tips);
      StepRightIff(cfg, w, Play(cfg, w, ops[..n]), ops[n], n);
    }
  }

  // ------------------------------------------------------------------ two runs

  lemma OneIsAccepted(cfg: Config, e: Event, now: int, chain: Hash)
    requires HandlerErrors(cfg, e, now) == []
    ensures Accepts(cfg, [e], now, 0) && ChainAfter(cfg, chain, [e], now, 1) == cfg.link(chain, cfg.digest(e))
  {
    hide HandlerErrors, BatchKey;
    assert ChainAfter(cfg, chain, [e], now, 0) == chain;
  }

  /** Where both runs begin: one event, throttled. */
  function Throttled(d: Event): Op {
    Op.Import([d], [0], [[]], RetrySplit.THROTTLED, true)
  }

  function Failed(w: World, d: Event): Record {
    RetrySplit.FailedRecord(0, d, w.minted(0))
  }

  lemma ThrottledFails(cfg: Config, w: World, d: Event)
    ensures Step(cfg, w, Lab(Service("", []), [], {}), Throttled(d), 0) == Lab(Service("", []), [Failed(w, d)], {})
  {
    hide FieldFault;
    var outcome := Deliver(cfg, Service("", []), Mock, RetrySplit.THROTTLED, [d], None, w, 0).1;
    assert Gate(RequestOf([d], w.minted(0), RetrySplit.THROTTLED, w, 0)) == Some(429);
    NothingPaired([d], 0);
    assert RecordsFor([0], [d], [[]], Mock, outcome) == [Failed(w, d)];
  }

  lemma PlayedInTurn(cfg: Config, w: World, ops: seq<Op>)
    requires AllUsable(ops) && |ops| == 3
    ensures ops[..2][..1] == ops[..1]
    ensures Play(cfg, w, ops[..1]) == Step(cfg, w, Lab(Service("", []), [], {}), ops[0], 0)
    ensures Play(cfg, w, ops[..2]) == Step(cfg, w, Play(cfg, w, ops[..1]), ops[1], 1)
  {
    hide Step;
    assert ops[..2][..1] == ops[..1] && ops[..1][..0] == [];
    assert Play(cfg, w, ops[..1]) == Step(cfg, w, Play(cfg, w, []), ops[0], 0);
  }

  lemma {:induction false} GroupOfOne(log: seq<Record>, n: nat, key: Option<string>)
    requires 1 <= n <= |log| && InGroup(log[0], {0}, key) && (forall p :: 1 <= p < |log| ==> log[p].id != 0)
    ensures Group(log, n, {0}, key) == [log[0]]
  {
    if n == 1 {
      assert Group(log, 0, {0}, key) == [];
    } else {
      GroupOfOne(log, n - 1, key);
    }
  }

  /** What the retry of the throttled event asks. */
  lemma RetryAsks(w: World, d: Event, lab: Lab, op: Op, i: nat)
    requires op.RetryOne? && op.wanted == {0} && op.key == Some(w.minted(0)) && op.friction == [] && w.minted(0) != ""
    requires |lab.log| >= 1 && lab.log[0] == Failed(w, d) && (forall p :: 1 <= p < |lab.log| ==> lab.log[p].id != 0)
    ensures RequestFor(w, lab, op, i) == RequestOf([d], w.minted(0), [], w, i)
    ensures Group(lab.log, 0, op.wanted, op.key) == [] && InGroup(lab.log[0], op.wanted, op.key)
  {
    GroupOfOne(lab.log, |lab.log|, op.key);
    assert EventsIn([lab.log[0]]) == [d];
  }

  /** Good events, the second imported while the first still waits to be retried. */
  ghost predicate Scene(cfg: Config, w: World, d: Event, e: Event) {
    && w.minted(0) != "" && w.minted(0) != w.minted(1)
    && !FieldFault(e, w.clock(1), w.wall(1)) && !FieldFault(d, w.clock(2), w.wall(2))
    && HandlerErrors(cfg, e, w.clock(1)) == [] && HandlerErrors(cfg, d, w.clock(2)) == []
    && OneWay(cfg)
  }

  function Ops(w: World, d: Event, e: Event): (ops: seq<Op>)
    ensures AllUsable(ops)
  {
    [Throttled(d), Op.Import([e], [1], [[]], [], true), RetryOne({0}, Some(w.minted(0)), [], true)]
  }

  lemma SecondImport(cfg: Config, w: World, d: Event, e: Event) returns (lab: Lab)
    requires Scene(cfg, w, d, e)
    ensures lab == Step(cfg, w, Lab(Service("", []), [Failed(w, d)], {}), Ops(w, d, e)[1], 1)
    ensures |lab.log| == 2 && lab.log[0] == Failed(w, d) && lab.log[1].id == 1 && Resume.Hands(lab.log[1]).Some?
    ensures !Holds(lab.service.cache, w.minted(0))
  {
    hide HandlerErrors, FieldFault, Paired, Accepts, AcceptedAmong, ErrorOf, Resume.Hands, StatusOf, Accepted, Carried;
    var m := Service("", []);
    var outcome := Deliver(cfg, m, Mock, [], [e], None, w, 1).1;
    RetrySplit.OneGate(e, w.minted(1), w, 1);
    OneIsAccepted(cfg, e, w.clock(1), "");
    AnsweredHands(cfg, m, [], [e], None, w, 1, 0);
    ImportHands([1], [e], [[]], outcome, 0);
    lab := Step(cfg, w, Lab(m, [Failed(w, d)], {}), Ops(w, d, e)[1], 1);
    assert lab.log[1] == RecordsFor([1], [e], [[]], Mock, outcome)[0];
  }

  lemma ThirdIsOvertaken(cfg: Config, w: World, d: Event, e: Event, lab: Lab)
    requires Scene(cfg, w, d, e)
    requires |lab.log| == 2 && lab.log[0] == Failed(w, d) && lab.log[1].id == 1 && Resume.Hands(lab.log[1]).Some?
    requires !Holds(lab.service.cache, w.minted(0))
    ensures AcceptsSome(cfg, w, lab, Ops(w, d, e)[2], 2) && Overtaken(cfg, w, lab, Ops(w, d, e)[2], 2)
  {
    hide HandlerErrors, FieldFault, Accepts, ChainAfter, Group, RequestFor;
    var op := Ops(w, d, e)[2];
    RetryAsks(w, d, lab, op, 2);
    RetrySplit.OneGate(d, w.minted(0), w, 2);
    OneIsAccepted(cfg, d, w.clock(2), lab.service.chain);
    assert OvertakenBy(cfg, w, lab, op, 2, 1);
  }

  /** The retried event extends the chain, and the log still hands on the tip before it. */
  lemma RetriedTipIsLost(cfg: Config, w: World, d: Event, e: Event)
    requires Scene(cfg, w, d, e)
    ensures !Right(Play(cfg, w, Ops(w, d, e)))
  {
    var ops := Ops(w, d, e);
    ThrottledFails(cfg, w, d);
    var lab := SecondImport(cfg, w, d, e);
    ThirdIsOvertaken(cfg, w, d, e, lab);
    hide Step, AcceptsSome, Overtaken, Right, Play;
    PlayedInTurn(cfg, w, ops);
    TipRecoveredIff(cfg, w, ops);
  }

  /** A good event whose retry is dropped at its commit and repeated within the replay window. */
  ghost predicate Again(cfg: Config, w: World, d: Event) {
    && w.minted(0) != "" && w.clock(2) - w.clock(1) < cfg.ttl
    && !FieldFault(d, w.clock(1), w.wall(1)) && !FieldFault(d, w.clock(2), w.wall(2))
    && HandlerErrors(cfg, d, w.clock(1)) == [] && OneWay(cfg)
  }

  function TwoRetries(w: World, d: Event): (ops: seq<Op>)
    ensures AllUsable(ops)
  {
    [Throttled(d), RetryOne({0}, Some(w.minted(0)), [], false), RetryOne({0}, Some(w.minted(0)), [], true)]
  }

  lemma DroppedRetry(cfg: Config, w: World, d: Event) returns (lab: Lab, entry: Entry)
    requires Again(cfg, w, d)
    ensures var before := Lab(Service("", []), [Failed(w, d)], {}); var op := TwoRetries(w, d)[1];
      lab == Step(cfg, w, before, op, 1) && AcceptsSome(cfg, w, before, op, 1)
    ensures lab.log == [Failed(w, d)] && lab.service == Service(cfg.link("", cfg.digest(d)), [entry])
    ensures entry == Entry(w.minted(0), Answer(cfg, "", [d], w.clock(1)), w.clock(1))
  {
    hide HandlerErrors, FieldFault, Accepts, Answer, Accepted, Group;
    var before := Lab(Service("", []), [Failed(w, d)], {});
    var op := TwoRetries(w, d)[1];
    RetryAsks(w, d, before, op, 1);
    RetrySplit.OneGate(d, w.minted(0), w, 1);
    OneIsAccepted(cfg, d, w.clock(1), "");
    lab := Step(cfg, w, before, op, 1);
    entry := Entry(w.minted(0), Answer(cfg, "", [d], w.clock(1)), w.clock(1));
    hide RequestFor;
    StepService(cfg, w, before, op, 1);
    assert Forget([], w.minted(0)) == [];
  }

  lemma ReplayRestamps(cfg: Config, w: World, d: Event, lab: Lab, entry: Entry)
    requires Again(cfg, w, d)
    requires lab.log == [Failed(w, d)] && lab.service == Service(cfg.link("", cfg.digest(d)), [entry])
    requires entry == Entry(w.minted(0), Answer(cfg, "", [d], w.clock(1)), w.clock(1))
    ensures Recovers(cfg, w, lab, TwoRetries(w, d)[2], 2, false)
  {
    hide HandlerErrors, FieldFault, Accepts, Group, ChainAfter, AcceptedAmong, StaleAmong, Carried, Verdicts, Paired, InGroup;
    var op := TwoRetries(w, d)[2];
    RetryAsks(w, d, lab, op, 2);
    RetrySplit.OneGate(d, w.minted(0), w, 2);
    RetrySplit.OneGate(d, w.minted(0), w, 1);
    OneIsAccepted(cfg, d, w.clock(1), "");
    FreshHands(cfg, "", [d], w.clock(1), 0);
    assert lab.service.cache[0].key == w.minted(0);
    hide RequestFor;
    assert HandsAfter(cfg, w, lab, op, 2) == [Some(lab.service.chain)];
  }

  /** The first retry extends the chain and is dropped, so the tip is lost; the second is
      replayed its answer and puts the tip back. */
  lemma SecondRetryRecovers(cfg: Config, w: World, d: Event)
    requires Again(cfg, w, d)
    ensures !Right(Play(cfg, w, TwoRetries(w, d)[..2])) && Right(Play(cfg, w, TwoRetries(w, d)))
  {
    hide Step, AcceptsSome, Overtaken, Right, Play, Restamps, LastIs, Throttled, Failed, Answer, HandsAfter;
    var ops := TwoRetries(w, d);
    ThrottledFails(cfg, w, d);
    PlayedInTurn(cfg, w, ops);
    var lab, entry := DroppedRetry(cfg, w, d);
    ReplayRestamps(cfg, w, d, lab, entry);
    TipRecoveredIff(cfg, w, ops[..2]);
    TipRecoveredIff(cfg, w, ops);
  }
}
