/**
 `retry_failed_delivery` against the mock: records are grouped by the idempotency key they
 were sent under, and a group that never got an answer is sent again under that key.
 */
module Retry {
  import opened Common
  import opened Records
  import opened MockSpec
  import opened MockService
  import MockCache
  import opened Pairing
  import opened Delivery
  import opened DeliveryTotals

  /** `stored_idempotency_key` */
  function StoredKey(r: Record): Option<string> {
    if r.key.Some? && r.key.value != "" then r.key else None
  }

  // ------------------------------------------------------------------ grouping

  /** What records are sent together under: a source, and the key of an earlier attempt. */
  datatype GroupKey = GroupKey(source: string, key: Option<string>)

  /** `sourceOf` is the source a record goes out under: the request's, or its own. */
  function GroupKeyOf(r: Record, sourceOf: Record -> string): GroupKey {
    GroupKey(sourceOf(r), StoredKey(r))
  }

  function GroupIn(records: seq<Record>, sourceOf: Record -> string, n: nat, key: GroupKey): seq<Record>
    requires n <= |records|
  {
    if n == 0 then []
    else GroupIn(records, sourceOf, n - 1, key)
         + if GroupKeyOf(records[n - 1], sourceOf) == key then [records[n - 1]] else []
  }

  function GroupAt(groups: map<GroupKey, seq<Record>>, key: GroupKey): seq<Record> {
    if key in groups then groups[key] else []
  }

  predicate DifferentKeys(keys: seq<GroupKey>, i: nat, j: nat)
    requires i < |keys| && j < |keys|
  {
    keys[i] != keys[j]
  }

  /** The groups of the first `n` records, one for each key among them. */
  ghost predicate Grouped(keys: seq<GroupKey>, groups: map<GroupKey, seq<Record>>, records: seq<Record>,
                          sourceOf: Record -> string, n: nat)
    requires n <= |records|
  {
    && (forall key :: key in groups <==> key in keys)
    && (forall i: nat, j: nat :: i < j < |keys| ==> DifferentKeys(keys, i, j))
    && (forall key :: GroupAt(groups, key) == GroupIn(records, sourceOf, n, key))
    && (forall j :: 0 <= j < n ==> GroupKeyOf(records[j], sourceOf) in keys)
  }

  lemma GroupGrows(keys: seq<GroupKey>, groups: map<GroupKey, seq<Record>>, records: seq<Record>,
                   sourceOf: Record -> string, n: nat, groups': map<GroupKey, seq<Record>>)
    requires n < |records| && Grouped(keys, groups, records, sourceOf, n)
    requires var key := GroupKeyOf(records[n], sourceOf); groups' == groups[key := GroupAt(groups, key) + [records[n]]]
    ensures forall key :: GroupAt(groups', key) == GroupIn(records, sourceOf, n + 1, key)
  {
    hide GroupKeyOf;
    forall key ensures GroupAt(groups', key) == GroupIn(records, sourceOf, n + 1, key) {
      assert GroupAt(groups, key) == GroupIn(records, sourceOf, n, key);
    }
  }

  lemma KeysGrow(keys: seq<GroupKey>, key: GroupKey)
    requires key !in keys && forall i: nat, j: nat :: i < j < |keys| ==> DifferentKeys(keys, i, j)
    ensures forall i: nat, j: nat :: i < j < |keys + [key]| ==> DifferentKeys(keys + [key], i, j)
  {
    var all := keys + [key];
    forall i: nat, j: nat | i < j < |all| ensures DifferentKeys(all, i, j) {
      if j < |keys| { assert DifferentKeys(keys, i, j); }
    }
  }

  lemma NoGroups(records: seq<Record>, sourceOf: Record -> string)
    ensures Grouped([], map[], records, sourceOf, 0)
  {}

  /** Groups by source and key, in the order the pairs first appear; every record is in the
      one group of its pair. */
  method GroupBySourceAndKey(candidates: seq<Record>, sourceOf: Record -> string)
    returns (keys: seq<GroupKey>, groups: map<GroupKey, seq<Record>>)
    ensures Grouped(keys, groups, candidates, sourceOf, |candidates|)
  {
    hide GroupKeyOf, GroupIn;
    keys, groups := [], map[];
    NoGroups(candidates, sourceOf);
    for i := 0 to |candidates|
      invariant Grouped(keys, groups, candidates, sourceOf, i)
    {
      var key := GroupKeyOf(candidates[i], sourceOf);
      ghost var before := groups;
      var known := key in groups;
      groups := groups[key := GroupAt(groups, key) + [candidates[i]]];
      GroupGrows(keys, before, candidates, sourceOf, i, groups);
      hide GroupAt;
      if !known {
        KeysGrow(keys, key);
        keys := keys + [key];
      }
    }
  }

  // ------------------------------------------------------------------ one group

  /** The key is used again only if no record of the group ever got an answer. */
  predicate Reuses(group: seq<Record>, key: Option<string>) {
    key.Some? && forall j :: 0 <= j < |group| ==> group[j].verdict.None?
  }

  function EventsIn(group: seq<Record>): (r: seq<Event>)
    ensures |r| == |group| && forall j :: 0 <= j < |r| ==> r[j] == group[j].event
  {
    seq(|group|, j requires 0 <= j < |group| => group[j].event)
  }

  /** A record after one more attempt: an earlier success time is kept unless there is a new one. */
  function Retried(r: Record, outcome: Outcome, verdict: Option<Verdict>): Record {
    var status := StatusOf(outcome, verdict);
    r.(mode := Mock, attempts := r.attempts + outcome.attempts, verdict := verdict, key := outcome.key, status := status,
       succeededAt := if status == Posted then outcome.completedAt else r.succeededAt,
       error := if status == Posted then None else ErrorOf(outcome, verdict))
  }

  /** A retry counts as one more attempt and never loses an earlier time of success; it leaves
      no error on a record that is posted and an error on one that is not. */
  lemma RetryKeepsHistory(r: Record, sent: nat, result: Result<Reply, string>, at: int, key: string, verdict: Option<Verdict>)
    ensures var r' := Retried(r, OutcomeOf(sent, result, at, key), verdict);
      && r'.id == r.id && r'.event == r.event && r'.parents == r.parents && r'.seqNo == r.seqNo
      && r'.attempts == r.attempts + 1 && r'.key == Some(key) && r'.mode == Mock && r'.verdict == verdict
      && (r'.status == Posted <==> r'.error.None?)
      && (result.Err? ==> r'.error == Some(Transport(result.error)))
      && (result.Ok? && |result.value.events| == sent && verdict.Some? && !verdict.value.accepted ==>
            r'.error == Some(if verdict.value.errors == [] then Unexplained else Rejected(verdict.value.errors)))
      && (r'.status == Posted ==> r'.succeededAt == Some(at))
      && (r'.status != Posted ==> r'.succeededAt == r.succeededAt)
  {
    if result.Ok? && |result.value.events| == sent {
      assert OutcomeOf(sent, result, at, key).status == Posted;
    }
  }

  function Send(cfg: Config, m: Service, friction: seq<string>, group: seq<Record>, key: Option<string>,
                w: World, i: nat): (Service, Outcome)
  {
    Deliver(cfg, m, Mock, friction, EventsIn(group), if Reuses(group, key) then key else None, w, i)
  }

  /** The records of a group after the attempt, each with its own answer if there is one. */
  function RetriedAll(group: seq<Record>, outcome: Outcome): (r: seq<Record>)
    ensures |r| == |group|
    ensures forall j :: 0 <= j < |r| ==> r[j] == Retried(group[j], outcome, Paired(EventsIn(group), ReplyEvents(outcome), j))
  {
    seq(|group|, j requires 0 <= j < |group| => Retried(group[j], outcome, Paired(EventsIn(group), ReplyEvents(outcome), j)))
  }

  method RetryGroup(service: MockRegEngineService, friction: seq<string>, group: seq<Record>, key: Option<string>,
                    w: World, i: nat) returns (updated: seq<Record>, outcome: Outcome)
    modifies service
    ensures (service.View(), outcome) == Send(service.cfg, old(service.View()), friction, group, key, w, i)
    ensures updated == RetriedAll(group, outcome)
  {
    hide Deliver, Paired, Retried;
    var answered := false;
    for j := 0 to |group|
      invariant answered <==> exists k :: 0 <= k < j && group[k].verdict.Some?
    {
      if group[j].verdict.Some? {
        answered := true;
      }
    }
    outcome := DeliverPayload(service, Mock, friction, EventsIn(group),
                              if key.Some? && !answered then key else None, w, i);
    var answers := if outcome.reply.Some? then outcome.reply.value.events else [];
    var paired := PairEventResponses(EventsIn(group), answers);
    updated := [];
    for j := 0 to |group|
      invariant |updated| == j
      invariant forall k :: 0 <= k < j ==> updated[k] == Retried(group[k], outcome, paired[k])
    {
      updated := updated + [Retried(group[j], outcome, paired[j])];
    }
  }

  // ------------------------------------------------------------------ runs

  /** Which records a retry sends together: failed ones it was asked for, under one key. */
  predicate InGroup(r: Record, ids: set<nat>, key: Option<string>) {
    r.status == Failed && r.id in ids && StoredKey(r) == key
  }

  function Group(log: seq<Record>, n: nat, ids: set<nat>, key: Option<string>): seq<Record>
    requires n <= |log|
  {
    if n == 0 then []
    else Group(log, n - 1, ids, key) + if InGroup(log[n - 1], ids, key) then [log[n - 1]] else []
  }

  datatype Op =
    | Import(events: seq<Event>, ids: seq<nat>, parents: seq<seq<string>>, friction: seq<string>, committed: bool)
    | RetryOne(wanted: set<nat>, key: Option<string>, friction: seq<string>, committed: bool)

  /** `ingested` is history: the ids of the records whose event the mock accepted. */
  datatype Lab = Lab(service: Service, log: seq<Record>, ingested: set<nat>)

  predicate Usable(op: Op) {
    op.Import? ==> |op.ids| == |op.parents| == |op.events|
  }

  /** The log with the group's records replaced, each paired with its own place in the group. */
  function Patched(log: seq<Record>, ids: set<nat>, key: Option<string>, outcome: Outcome): (r: seq<Record>)
    ensures |r| == |log|
  {
    var events := EventsIn(Group(log, |log|, ids, key));
    seq(|log|, p requires 0 <= p < |log| =>
      var rank := |Group(log, p, ids, key)|;
      if InGroup(log[p], ids, key) && rank < |events|
      then Retried(log[p], outcome, Paired(events, ReplyEvents(outcome), rank))
      else log[p])
  }

  /** The ids whose events a request got accepted, unless it raised or was replayed. */
  function Accepted(cfg: Config, m: Service, req: Request, ids: seq<nat>): set<nat>
    requires |ids| == |req.events|
  {
    if Gate(req).Some? || Replays(cfg, m, req) then {}
    else set j | 0 <= j < |ids| && Accepts(cfg, req.events, req.now, j) :: ids[j]
  }

  function IdsIn(group: seq<Record>): (r: seq<nat>)
    ensures |r| == |group| && forall j :: 0 <= j < |r| ==> r[j] == group[j].id
  {
    seq(|group|, j requires 0 <= j < |group| => group[j].id)
  }

  function Step(cfg: Config, w: World, lab: Lab, op: Op, i: nat): Lab
    requires Usable(op)
  {
    match op
    case Import(events, ids, parents, friction, committed) =>
      var (m', outcome) := Deliver(cfg, lab.service, Mock, friction, events, None, w, i);
      Lab(m', if committed then lab.log + RecordsFor(ids, events, parents, Mock, outcome) else lab.log,
          lab.ingested + Accepted(cfg, lab.service, RequestOf(events, w.minted(i), friction, w, i), ids))
    case RetryOne(wanted, key, friction, committed) =>
      var group := Group(lab.log, |lab.log|, wanted, key);
      var (m', outcome) := Send(cfg, lab.service, friction, group, key, w, i);
      var used := KeyUsed(if Reuses(group, key) then key else None, w, i);
      Lab(m', if committed then Patched(lab.log, wanted, key, outcome) else lab.log,
          lab.ingested + Accepted(cfg, lab.service, RequestOf(EventsIn(group), used, friction, w, i), IdsIn(group)))
  }

  function Play(cfg: Config, w: World, ops: seq<Op>): Lab
    requires forall k :: 0 <= k < |ops| ==> Usable(ops[k])
    decreases |ops|
  {
    if ops == [] then Lab(Service("", []), [], {})
    else Step(cfg, w, Play(cfg, w, ops[..|ops| - 1]), ops[|ops| - 1], |ops| - 1)
  }

  // ------------------------------------------------------------------ whole groups

  datatype Claim = Claim(id: nat, event: Event)

  predicate Waits(r: Record, key: string) {
    r.verdict.None? && StoredKey(r) == Some(key)
  }

  /** The records still without an answer under a key. */
  function Waiting(log: seq<Record>, n: nat, key: string): seq<Claim>
    requires n <= |log|
  {
    if n == 0 then []
    else Waiting(log, n - 1, key) + if Waits(log[n - 1], key) then [Claim(log[n - 1].id, log[n - 1].event)] else []
  }

  function Claims(group: seq<Record>): (r: seq<Claim>)
    ensures |r| == |group| && forall j :: 0 <= j < |r| ==> r[j] == Claim(group[j].id, group[j].event)
  {
    seq(|group|, j requires 0 <= j < |group| => Claim(group[j].id, group[j].event))
  }

  /** A retry that uses a key again takes every record still waiting under it. */
  predicate Whole(log: seq<Record>, op: Op) {
    op.RetryOne? ==>
      var group := Group(log, |log|, op.wanted, op.key);
      Reuses(group, op.key) ==> Claims(group) == Waiting(log, |log|, op.key.value)
  }

  predicate AlwaysWhole(cfg: Config, w: World, ops: seq<Op>)
    requires forall k :: 0 <= k < |ops| ==> Usable(ops[k])
    decreases |ops|
  {
    ops == [] || (AlwaysWhole(cfg, w, ops[..|ops| - 1])
                  && Whole(Play(cfg, w, ops[..|ops| - 1]).log, ops[|ops| - 1]))
  }
}
