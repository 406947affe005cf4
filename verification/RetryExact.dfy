/**
 Exactly when a record that reads posted was ingested: unless a request is answered from the
 cache for events the cached answer was not about.
 */
module RetryExact {
  import opened Common
  import opened Records
  import opened MockSpec
  import opened Pairing
  import opened Delivery
  import opened DeliveryTotals
  import opened Retry
  import opened RetryRuns

  /** The cached answer a request would be replayed, if it would. */
  function Cached(cfg: Config, m: Service, req: Request): Option<seq<Verdict>> {
    if Gate(req).None? && Replays(cfg, m, req) then Some(m.cache[Slot(m.cache, req.key.value)].response.events)
    else None
  }

  /** The request is let through and replayed an answer of exactly its size, in which some
      event not ingested yet is accepted, or not mentioned. */
  predicate MisledBy(cached: Option<seq<Verdict>>, events: seq<Event>, ids: seq<nat>, ingested: set<nat>)
    requires |ids| == |events|
  {
    && cached.Some? && |cached.value| == |events|
    && exists j :: 0 <= j < |events| && ids[j] !in ingested && ReadsPosted(Paired(events, cached.value, j))
  }

  function EventsOf(lab: Lab, op: Op): seq<Event> {
    match op
    case Import(events, _, _, _, _) => events
    case RetryOne(wanted, key, _, _) => EventsIn(Group(lab.log, |lab.log|, wanted, key))
  }

  function IdsOf(lab: Lab, op: Op): (ids: seq<nat>)
    requires Usable(op)
    ensures |ids| == |EventsOf(lab, op)|
  {
    match op
    case Import(_, ids, _, _, _) => ids
    case RetryOne(wanted, key, _, _) => IdsIn(Group(lab.log, |lab.log|, wanted, key))
  }

  /** The key an operation asks for; none for a new one. */
  function KeyAsked(lab: Lab, op: Op): Option<string> {
    match op
    case Import(_, _, _, _, _) => None
    case RetryOne(wanted, key, _, _) => if Reuses(Group(lab.log, |lab.log|, wanted, key), key) then key else None
  }

  function RequestFor(w: World, lab: Lab, op: Op, i: nat): Request {
    RequestOf(EventsOf(lab, op), KeyUsed(KeyAsked(lab, op), w, i), op.friction, w, i)
  }

  /** The operation commits an answer that was not about its events. */
  predicate Misled(cfg: Config, w: World, lab: Lab, op: Op, i: nat)
    requires Usable(op)
  {
    op.committed && MisledBy(Cached(cfg, lab.service, RequestFor(w, lab, op, i)),
                             EventsOf(lab, op), IdsOf(lab, op), lab.ingested)
  }

  // ------------------------------------------------------------------ one request

  /** Every event that reads posted after the request was ingested. */
  ghost predicate TellsTruth(outcome: Outcome, events: seq<Event>, ids: seq<nat>, ingested: set<nat>)
    requires |ids| == |events|
  {
    forall j :: 0 <= j < |events| && StatusOf(outcome, Paired(events, ReplyEvents(outcome), j)) == Posted ==> ids[j] in ingested
  }

  lemma FreshTellsTruth(outcome: Outcome, events: seq<Event>, ids: seq<nat>, ingested: set<nat>)
    requires |ids| == |events| && outcome.status == Posted && outcome.reply.Some?
    requires Covers(ClaimsOf(events, ids), outcome.reply.value.events, ingested)
    ensures TellsTruth(outcome, events, ids, ingested)
  {
    hide Paired;
    var own := outcome.reply.value.events;
    assert Own(events, own);
    RequestOrderIsRight(events, own);
    hide Own;
    forall j | 0 <= j < |events| && own[j].accepted ensures ids[j] in ingested {
      assert ClaimsOf(events, ids)[j].id == ids[j];
    }
  }

  lemma FailedTellsTruth(outcome: Outcome, events: seq<Event>, ids: seq<nat>, ingested: set<nat>)
    requires |ids| == |events| && outcome.status == Failed
    ensures TellsTruth(outcome, events, ids, ingested)
  {
    hide Paired;
  }

  lemma ReplayTellsTruthIff(outcome: Outcome, events: seq<Event>, ids: seq<nat>, ingested: set<nat>)
    requires |ids| == |events| && outcome.status == Posted && outcome.reply.Some?
    requires |outcome.reply.value.events| == |events|
    ensures TellsTruth(outcome, events, ids, ingested)
      <==> !MisledBy(Some(outcome.reply.value.events), events, ids, ingested)
  {
    hide Paired;
  }

  lemma ReplayedEntry(cfg: Config, m: Service, req: Request)
    requires Replays(cfg, m, req)
    ensures Holds(m.cache, req.key.value) && req.key.Some?
  {}

  lemma AnswerSize(cfg: Config, chain: Hash, events: seq<Event>, now: int)
    ensures |Answer(cfg, chain, events, now).events| == |events|
  {
    hide VerdictAt, AcceptedAmong, StaleAmong;
  }

  lemma NotCached(events: seq<Event>, ids: seq<nat>, ingested: set<nat>)
    requires |ids| == |events|
    ensures !MisledBy(None, events, ids, ingested)
  {}

  lemma WrongSize(verdicts: seq<Verdict>, events: seq<Event>, ids: seq<nat>, ingested: set<nat>)
    requires |ids| == |events| && |verdicts| != |events|
    ensures !MisledBy(Some(verdicts), events, ids, ingested)
  {}

  /** A request tells the truth about its events if and only if it is not misled. */
  lemma RequestTellsTruthIff(cfg: Config, m: Service, friction: seq<string>, events: seq<Event>, ids: seq<nat>,
                             key: Option<string>, w: World, i: nat, ingested: set<nat>)
    requires |ids| == |events|
    ensures var req := RequestOf(events, KeyUsed(key, w, i), friction, w, i);
      TellsTruth(Deliver(cfg, m, Mock, friction, events, key, w, i).1, events, ids, ingested + Accepted(cfg, m, req, ids))
      <==> !MisledBy(Cached(cfg, m, req), events, ids, ingested)
  {
    hide Gate, Replays, Answer, Covers, TellsTruth, MisledBy, ErrorsAt, Paired, Slot;
    var req := RequestOf(events, KeyUsed(key, w, i), friction, w, i);
    var outcome := Deliver(cfg, m, Mock, friction, events, key, w, i).1;
    var more := ingested + Accepted(cfg, m, req, ids);
    if Gate(req).Some? {
      FailedTellsTruth(outcome, events, ids, more);
      NotCached(events, ids, ingested);
    } else if Replays(cfg, m, req) {
      assert more == ingested;
      ReplayedEntry(cfg, m, req);
      var verdicts := m.cache[Slot(m.cache, req.key.value)].response.events;
      if |verdicts| == |events| {
        ReplayTellsTruthIff(outcome, events, ids, ingested);
      } else {
        FailedTellsTruth(outcome, events, ids, more);
        WrongSize(verdicts, events, ids, ingested);
      }
    } else {
      FreshCovers(cfg, m, req, ids, ingested);
      AnswerSize(cfg, m.chain, events, req.now);
      FreshTellsTruth(outcome, events, ids, more);
      NotCached(events, ids, ingested);
    }
  }

  // ------------------------------------------------------------------ one operation

  lemma ImportHonestIff(log: seq<Record>, events: seq<Event>, ids: seq<nat>, parents: seq<seq<string>>, outcome: Outcome,
                        ingested: set<nat>)
    requires |ids| == |parents| == |events| && Honest(log, ingested)
    ensures Honest(log + RecordsFor(ids, events, parents, Mock, outcome), ingested)
      <==> TellsTruth(outcome, events, ids, ingested)
  {
    hide Paired, StatusOf, ErrorOf;
    var records := RecordsFor(ids, events, parents, Mock, outcome);
    var all := log + records;
    if Honest(all, ingested) {
      forall j | 0 <= j < |events| && StatusOf(outcome, Paired(events, ReplyEvents(outcome), j)) == Posted
        ensures ids[j] in ingested
      {
        assert all[|log| + j] == records[j];
      }
    }
  }

  lemma PatchedElsewhere(log: seq<Record>, ids: set<nat>, key: Option<string>, outcome: Outcome, p: nat)
    requires p < |log| && !InGroup(log[p], ids, key)
    ensures Patched(log, ids, key, outcome)[p] == log[p]
  {}

  lemma PatchedStatus(log: seq<Record>, ids: set<nat>, key: Option<string>, outcome: Outcome, p: nat)
    requires p < |log| && InGroup(log[p], ids, key)
    ensures var group := Group(log, |log|, ids, key);
      var rank := |Group(log, p, ids, key)|;
      && rank < |group| && group[rank] == log[p] && Patched(log, ids, key, outcome)[p].id == log[p].id
      && Patched(log, ids, key, outcome)[p].status == StatusOf(outcome, Paired(EventsIn(group), ReplyEvents(outcome), rank))
  {
    hide StatusOf, ErrorOf, Paired, Patched;
    PatchedAt(log, ids, key, outcome, p);
  }

  /** Where in the log the `j`-th record of the group is. */
  lemma {:induction false} WhenceAt(log: seq<Record>, n: nat, ids: set<nat>, key: Option<string>, j: nat) returns (q: nat)
    requires n <= |log| && j < |Group(log, n, ids, key)|
    ensures q < n && InGroup(log[q], ids, key) && |Group(log, q, ids, key)| == j && Group(log, n, ids, key)[j] == log[q]
  {
    if j < |Group(log, n - 1, ids, key)| {
      q := WhenceAt(log, n - 1, ids, key, j);
    } else {
      q := n - 1;
    }
  }

  lemma RetryHonestIff(log: seq<Record>, ids: set<nat>, key: Option<string>, outcome: Outcome, ingested: set<nat>)
    requires Honest(log, ingested)
    ensures var group := Group(log, |log|, ids, key);
      Honest(Patched(log, ids, key, outcome), ingested) <==> TellsTruth(outcome, EventsIn(group), IdsIn(group), ingested)
  {
    hide Patched, StatusOf, Paired, Group, InGroup;
    var group := Group(log, |log|, ids, key);
    var patched := Patched(log, ids, key, outcome);
    if Honest(patched, ingested) {
      forall j | 0 <= j < |group| && StatusOf(outcome, Paired(EventsIn(group), ReplyEvents(outcome), j)) == Posted
        ensures IdsIn(group)[j] in ingested
      {
        var p := WhenceAt(log, |log|, ids, key, j);
        PatchedStatus(log, ids, key, outcome, p);
      }
    }
    if TellsTruth(outcome, EventsIn(group), IdsIn(group), ingested) {
      forall p: nat | p < |patched| && patched[p].status == Posted ensures patched[p].id in ingested {
        if InGroup(log[p], ids, key) {
          PatchedStatus(log, ids, key, outcome, p);
          assert IdsIn(group)[|Group(log, p, ids, key)|] == log[p].id;
        } else {
          PatchedElsewhere(log, ids, key, outcome, p);
        }
      }
    }
  }

  lemma ImportStepHonestIff(cfg: Config, w: World, lab: Lab, op: Op, i: nat)
    requires Usable(op) && op.Import? && Honest(lab.log, lab.ingested)
    ensures var next := Step(cfg, w, lab, op, i);
      Honest(next.log, next.ingested) <==> !Misled(cfg, w, lab, op, i)
  {
    hide Deliver, MisledBy, Cached, TellsTruth, Honest, Accepted, RecordsFor;
    var (m', outcome) := Deliver(cfg, lab.service, Mock, op.friction, op.events, None, w, i);
    var req := RequestOf(op.events, w.minted(i), op.friction, w, i);
    var more := lab.ingested + Accepted(cfg, lab.service, req, op.ids);
    HonestMore(lab.log, lab.ingested, more);
    RequestTellsTruthIff(cfg, lab.service, op.friction, op.events, op.ids, None, w, i, lab.ingested);
    ImportHonestIff(lab.log, op.events, op.ids, op.parents, outcome, more);
  }

  lemma RetryStepHonestIff(cfg: Config, w: World, lab: Lab, op: Op, i: nat)
    requires op.RetryOne? && Honest(lab.log, lab.ingested)
    ensures var next := Step(cfg, w, lab, op, i);
      Honest(next.log, next.ingested) <==> !Misled(cfg, w, lab, op, i)
  {
    hide Deliver, MisledBy, Cached, TellsTruth, Honest, Accepted, Patched, Group, Reuses, KeyUsed;
    var group := Group(lab.log, |lab.log|, op.wanted, op.key);
    var asked := KeyAsked(lab, op);
    var (m', outcome) := Deliver(cfg, lab.service, Mock, op.friction, EventsIn(group), asked, w, i);
    var req := RequestOf(EventsIn(group), KeyUsed(asked, w, i), op.friction, w, i);
    var more := lab.ingested + Accepted(cfg, lab.service, req, IdsIn(group));
    HonestMore(lab.log, lab.ingested, more);
    RequestTellsTruthIff(cfg, lab.service, op.friction, EventsIn(group), IdsIn(group), asked, w, i, lab.ingested);
    RetryHonestIff(lab.log, op.wanted, op.key, outcome, more);
  }

  /** One import or retry keeps an honest log honest if and only if it is not misled. */
  lemma StepHonestIff(cfg: Config, w: World, lab: Lab, op: Op, i: nat)
    requires Usable(op) && Honest(lab.log, lab.ingested)
    ensures var next := Step(cfg, w, lab, op, i);
      Honest(next.log, next.ingested) <==> !Misled(cfg, w, lab, op, i)
  {
    hide *;
    if op.Import? {
      ImportStepHonestIff(cfg, w, lab, op, i);
    } else {
      RetryStepHonestIff(cfg, w, lab, op, i);
    }
  }

  // ------------------------------------------------------------------ whole runs

  predicate AllUsable(ops: seq<Op>) {
    forall k :: 0 <= k < |ops| ==> Usable(ops[k])
  }

  /** No operation of the run is misled. */
  predicate NeverMisled(cfg: Config, w: World, ops: seq<Op>)
    requires AllUsable(ops)
    decreases |ops|
  {
    ops == [] || (NeverMisled(cfg, w, ops[..|ops| - 1])
                  && !Misled(cfg, w, Play(cfg, w, ops[..|ops| - 1]), ops[|ops| - 1], |ops| - 1))
  }

  /** At every moment of the run a record that reads posted was ingested. */
  ghost predicate AlwaysHonest(cfg: Config, w: World, ops: seq<Op>)
    requires AllUsable(ops)
    decreases |ops|
  {
    (ops == [] || AlwaysHonest(cfg, w, ops[..|ops| - 1])) && Honest(Play(cfg, w, ops).log, Play(cfg, w, ops).ingested)
  }

  lemma HonestAtEnd(cfg: Config, w: World, ops: seq<Op>)
    requires AllUsable(ops) && AlwaysHonest(cfg, w, ops)
    ensures Honest(Play(cfg, w, ops).log, Play(cfg, w, ops).ingested)
  {}

  /** Over any run of imports and retries posted means ingested throughout if and only if no
      operation is misled. */
  lemma {:induction false} PostedMeansIngestedIff(cfg: Config, w: World, ops: seq<Op>)
    requires AllUsable(ops)
    ensures AlwaysHonest(cfg, w, ops) <==> NeverMisled(cfg, w, ops)
    decreases |ops|
  {
    if ops == [] {
    } else {
      hide Honest, Misled, Step;
      var n := |ops| - 1;
      PostedMeansIngestedIff(cfg, w, ops[..n]);
      if NeverMisled(cfg, w, ops[..n]) {
        HonestAtEnd(cfg, w, ops[..n]);
        StepHonestIff(cfg, w, Play(cfg, w, ops[..n]), ops[n], n);
      }
    }
  }

  /** So retries that take whole groups are never misled. */
  lemma {:induction false} WholeIsNeverMisled(cfg: Config, w: World, ops: seq<Op>)
    requires AllUsable(ops) && AlwaysWhole(cfg, w, ops) && PlainKeys(w) && NewKeys(Service("", []), w, 0)
    ensures NeverMisled(cfg, w, ops)
    decreases |ops|
  {
    if ops == [] {
    } else {
      hide Misled, Step, Whole, NewKeys;
      var n := |ops| - 1;
      WholeIsNeverMisled(cfg, w, ops[..n]);
      RunKeepsSound(cfg, w, ops[..n]);
      RunKeepsSound(cfg, w, ops);
      StepHonestIff(cfg, w, Play(cfg, w, ops[..n]), ops[n], n);
    }
  }
}
