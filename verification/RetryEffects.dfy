/**
 What a retry takes up and what it leaves alone: which records go together, and which
 records of the log it may rewrite.
 */
module RetryEffects {
  import opened Common
  import opened Records
  import opened MockSpec
  import opened MockChain
  import opened MockVerdicts
  import opened Pairing
  import opened Delivery
  import opened Retry
  import RetryFlights
  import StoreSpec

  // ------------------------------------------------------------------ the groups

  /** The record goes out under that source, and was last sent under that key, an empty one
      counting as none. */
  predicate Belongs(r: Record, sourceOf: Record -> string, key: GroupKey) {
    && sourceOf(r) == key.source
    && (if r.key.None? || r.key == Some("") then key.key.None? else key.key == r.key)
  }

  lemma {:induction false} GroupsJoin(xs: seq<Record>, ys: seq<Record>, sourceOf: Record -> string, n: nat, key: GroupKey)
    requires n <= |ys|
    ensures GroupIn(xs + ys, sourceOf, |xs| + n, key) == GroupIn(xs, sourceOf, |xs|, key) + GroupIn(ys, sourceOf, n, key)
  {
    hide GroupKeyOf;
    if n == 0 {
      GroupPrefix(xs, ys, sourceOf, |xs|, key);
    } else {
      GroupsJoin(xs, ys, sourceOf, n - 1, key);
      assert (xs + ys)[|xs| + n - 1] == ys[n - 1];
    }
  }

  lemma {:induction false} GroupPrefix(xs: seq<Record>, ys: seq<Record>, sourceOf: Record -> string, n: nat, key: GroupKey)
    requires n <= |xs|
    ensures GroupIn(xs + ys, sourceOf, n, key) == GroupIn(xs, sourceOf, n, key)
  {
    hide GroupKeyOf;
    if n == 0 {
    } else {
      GroupPrefix(xs, ys, sourceOf, n - 1, key);
    }
  }

  /** The group of a key is taken out of the candidates in order: that of a longer list is that
      of its parts one behind the other, and a single record is in it exactly if it belongs. */
  lemma GroupsKeepOrder(xs: seq<Record>, ys: seq<Record>, r: Record, sourceOf: Record -> string, key: GroupKey)
    ensures GroupIn(xs + ys, sourceOf, |xs + ys|, key)
      == GroupIn(xs, sourceOf, |xs|, key) + GroupIn(ys, sourceOf, |ys|, key)
    ensures GroupIn([r], sourceOf, 1, key) == if Belongs(r, sourceOf, key) then [r] else []
    ensures GroupIn([], sourceOf, 0, key) == []
  {
    GroupsJoin(xs, ys, sourceOf, |ys|, key);
    assert GroupIn([r], sourceOf, 0, key) == [];
  }

  lemma BelongsIffSameKey(r: Record, sourceOf: Record -> string, key: GroupKey)
    ensures Belongs(r, sourceOf, key) <==> GroupKeyOf(r, sourceOf) == key
  {}

  lemma OneMoreMember(records: seq<Record>, sourceOf: Record -> string, n: nat, key: GroupKey, r: Record)
    requires 0 < n <= |records|
    ensures multiset(GroupIn(records, sourceOf, n, key))[r]
      == multiset(GroupIn(records, sourceOf, n - 1, key))[r] + if r == records[n - 1] && Belongs(r, sourceOf, key) then 1 else 0
    ensures multiset(records[..n])[r] == multiset(records[..n - 1])[r] + if r == records[n - 1] then 1 else 0
  {
    BelongsIffSameKey(records[n - 1], sourceOf, key);
    hide Belongs, GroupKeyOf;
    assert records[..n] == records[..n - 1] + [records[n - 1]];
  }

  lemma NoMembers(records: seq<Record>, sourceOf: Record -> string, key: GroupKey, r: Record)
    ensures multiset(GroupIn(records, sourceOf, 0, key))[r] == 0 && multiset(records[..0])[r] == 0
  {}

  lemma {:induction false} GroupMembers(records: seq<Record>, sourceOf: Record -> string, n: nat, key: GroupKey, r: Record)
    requires n <= |records|
    ensures multiset(GroupIn(records, sourceOf, n, key))[r]
      == if Belongs(r, sourceOf, key) then multiset(records[..n])[r] else 0
  {
    hide Belongs, GroupKeyOf, GroupIn;
    if n == 0 {
      NoMembers(records, sourceOf, key, r);
    } else {
      GroupMembers(records, sourceOf, n - 1, key, r);
      OneMoreMember(records, sourceOf, n, key, r);
    }
  }

  /** However the candidates were grouped: a group holds only records that go out under its
      source and key, each as often as among the candidates, and every candidate is in the
      group of exactly one key. */
  lemma GroupsAreRight(keys: seq<GroupKey>, groups: map<GroupKey, seq<Record>>, records: seq<Record>,
                       sourceOf: Record -> string, r: Record)
    requires Grouped(keys, groups, records, sourceOf, |records|)
    ensures forall key :: key in keys <==> key in groups
    ensures forall key :: key in keys ==>
      multiset(groups[key])[r] == if Belongs(r, sourceOf, key) then multiset(records)[r] else 0
    ensures r in records ==> exists i: nat :: i < |keys| && r in groups[keys[i]]
    ensures forall i: nat, j: nat :: i < j < |keys| && r in groups[keys[i]] ==> r !in groups[keys[j]]
  {
    hide GroupIn;
    assert records[..|records|] == records;
    forall key | key in keys
      ensures multiset(groups[key])[r] == if Belongs(r, sourceOf, key) then multiset(records)[r] else 0
    {
      GroupMembers(records, sourceOf, |records|, key, r);
      assert GroupAt(groups, key) == GroupIn(records, sourceOf, |records|, key);
    }
    forall key | key in keys ensures r in groups[key] <==> Belongs(r, sourceOf, key) && r in records {
      assert r in groups[key] <==> r in multiset(groups[key]);
      assert r in records <==> r in multiset(records);
    }
    if r in records {
      var j: nat :| j < |records| && records[j] == r;
      assert GroupKeyOf(records[j], sourceOf) in keys;
    }
    forall i: nat, j: nat | i < j < |keys| && r in groups[keys[i]] ensures r !in groups[keys[j]] {
      assert DifferentKeys(keys, i, j);
    }
  }

  // ------------------------------------------------------------------ the log

  /** A record a retry may rewrite: failed, asked for, and last sent under that key. */
  predicate Eligible(r: Record, wanted: set<nat>, key: Option<string>) {
    && r.status == Failed && r.id in wanted
    && (if r.key.None? || r.key == Some("") then key.None? else key == r.key)
  }

  lemma {:induction false} GroupIsEligible(log: seq<Record>, n: nat, wanted: set<nat>, key: Option<string>, r: Record)
    requires n <= |log|
    ensures r in Group(log, n, wanted, key) <==> r in log[..n] && Eligible(r, wanted, key)
  {
    if n == 0 {
    } else {
      GroupIsEligible(log, n - 1, wanted, key, r);
      assert log[..n] == log[..n - 1] + [log[n - 1]];
    }
  }

  /** A retry sends exactly the eligible records, rewrites no others, and of those it rewrites
      keeps the number, the id, the event and the parents; if its commit is dropped the log
      stays as it was. */
  lemma RetryRewritesOnlyEligible(cfg: Config, w: World, lab: Lab, wanted: set<nat>, key: Option<string>,
                                  friction: seq<string>, committed: bool, i: nat, p: nat)
    requires p < |lab.log|
    ensures var after := Step(cfg, w, lab, RetryOne(wanted, key, friction, committed), i).log; var r := lab.log[p];
      && |after| == |lab.log|
      && (!committed ==> after == lab.log)
      && (!Eligible(r, wanted, key) ==> after[p] == r)
      && after[p].id == r.id && after[p].seqNo == r.seqNo && after[p].event == r.event && after[p].parents == r.parents
      && (committed && Eligible(r, wanted, key) ==> after[p].attempts == r.attempts + 1 && after[p].mode == Mock)
  {
    hide Deliver, Accepted, StatusOf, ErrorOf, Paired;
    var group := Group(lab.log, |lab.log|, wanted, key);
    RankIsInside(lab.log, |lab.log|, wanted, key, p);
    OneAttempt(cfg, lab.service, friction, group, key, w, i);
  }

  lemma {:induction false} RankIsInside(log: seq<Record>, n: nat, wanted: set<nat>, key: Option<string>, p: nat)
    requires p < n <= |log|
    ensures InGroup(log[p], wanted, key) ==> |Group(log, p, wanted, key)| < |Group(log, n, wanted, key)|
    ensures |Group(log, p, wanted, key)| <= |Group(log, n, wanted, key)|
  {
    if n == p + 1 {
    } else {
      RankIsInside(log, n - 1, wanted, key, p);
    }
  }

  lemma OneAttempt(cfg: Config, m: Service, friction: seq<string>, group: seq<Record>, key: Option<string>, w: World, i: nat)
    ensures Send(cfg, m, friction, group, key, w, i).1.attempts == 1
  {
    hide Ingest, Reuses;
  }

  // ------------------------------------------------------------------ what was ingested

  /** The request was answered afresh, and the event of that id was accepted. */
  ghost predicate AcceptsFor(cfg: Config, m: Service, req: Request, ids: seq<nat>, id: nat)
    requires |ids| == |req.events|
  {
    && Looked(cfg, m, req)
    && var answer := Ingest(cfg, m, req).1;
    answer.Ok? && |answer.value.events| == |ids| && exists j :: 0 <= j < |ids| && ids[j] == id && answer.value.events[j].accepted
  }

  lemma AcceptedIffAnswered(cfg: Config, m: Service, req: Request, ids: seq<nat>, id: nat)
    requires |ids| == |req.events|
    ensures id in Accepted(cfg, m, req, ids) <==> AcceptsFor(cfg, m, req, ids, id)
  {
    if Looked(cfg, m, req) {
      LookedAtAnswers(cfg, m, req);
      hide Ingest, Accepts, ChainAfter, AcceptedAmong, StaleAmong, Gate, Replays;
      var verdicts := Verdicts(cfg, m.chain, req.events, req.now);
      forall j | 0 <= j < |ids| ensures verdicts[j].accepted <==> Accepts(cfg, req.events, req.now, j) {
        assert verdicts[j] == VerdictAt(cfg, m.chain, req.events, req.now, j);
      }
    }
  }

  /** Operation `k` of a run got the event of that id accepted. */
  ghost predicate AcceptedAt(cfg: Config, w: World, ops: seq<Op>, k: nat, id: nat)
    requires k < |ops| && forall i :: 0 <= i < |ops| ==> Usable(ops[i])
  {
    assert Usable(ops[k]);
    var lab := Play(cfg, w, ops[..k]);
    match ops[k]
    case Import(events, ids, parents, friction, _) =>
      AcceptsFor(cfg, lab.service, RequestOf(events, w.minted(k), friction, w, k), ids, id)
    case RetryOne(wanted, key, friction, _) =>
      var group := Group(lab.log, |lab.log|, wanted, key);
      var used := if key.Some? && (forall r :: r in group ==> r.verdict.None?) then key.value else w.minted(k);
      AcceptsFor(cfg, lab.service, RequestOf(EventsIn(group), used, friction, w, k), IdsIn(group), id)
  }

  lemma StepIngests(cfg: Config, w: World, ops: seq<Op>, k: nat, id: nat)
    requires k < |ops| && forall i :: 0 <= i < |ops| ==> Usable(ops[i])
    ensures var lab := Play(cfg, w, ops[..k]);
      id in Step(cfg, w, lab, ops[k], k).ingested <==> id in lab.ingested || AcceptedAt(cfg, w, ops, k, id)
  {
    hide Deliver, Accepted, AcceptsFor, Patched, RecordsFor, Send, Play;
    var lab := Play(cfg, w, ops[..k]);
    match ops[k]
    case Import(events, ids, parents, friction, _) =>
      AcceptedIffAnswered(cfg, lab.service, RequestOf(events, w.minted(k), friction, w, k), ids, id);
    case RetryOne(wanted, key, friction, _) =>
      var group := Group(lab.log, |lab.log|, wanted, key);
      assert Reuses(group, key) <==> key.Some? && forall r :: r in group ==> r.verdict.None?;
      var used := KeyUsed(if Reuses(group, key) then key else None, w, k);
      AcceptedIffAnswered(cfg, lab.service, RequestOf(EventsIn(group), used, friction, w, k), IdsIn(group), id);
  }

  /** What a run counts as ingested is exactly what the mock accepted when it looked at it:
      never a replayed answer, nor one to a request that failed. */
  lemma {:induction false} IngestedIffAccepted(cfg: Config, w: World, ops: seq<Op>, n: nat, id: nat)
    requires n <= |ops| && forall i :: 0 <= i < |ops| ==> Usable(ops[i])
    ensures id in Play(cfg, w, ops[..n]).ingested <==> exists k: nat :: k < n && AcceptedAt(cfg, w, ops, k, id)
  {
    hide Step, AcceptedAt;
    if n == 0 {
    } else {
      IngestedIffAccepted(cfg, w, ops, n - 1, id);
      StepIngests(cfg, w, ops, n - 1, id);
      assert ops[..n][..n - 1] == ops[..n - 1];
    }
  }

  // ------------------------------------------------------------------ overlapping calls

  /** All but one of the flights, if any, are as they were. */
  predicate OnlyFlight(before: seq<RetryFlights.Flight>, after: seq<RetryFlights.Flight>, f: nat) {
    |after| == |before| && forall g :: 0 <= g < |before| && g != f ==> after[g] == before[g]
  }

  function EventsCarried(parcel: RetryFlights.Parcel): seq<Event> {
    if parcel.Fresh? then parcel.events else EventsIn(parcel.group)
  }

  /** Records sent again go under their stored key as long as none of them has an answer; all
      others go under a new one. */
  ghost function KeyToUse(parcel: RetryFlights.Parcel): Option<string> {
    if parcel.Again? && forall r :: r in parcel.group ==> r.verdict.None? then parcel.key else None
  }

  lemma KeyIsAsked(parcel: RetryFlights.Parcel)
    ensures RetryFlights.KeyAsked(parcel) == KeyToUse(parcel) && RetryFlights.EventsOf(parcel) == EventsCarried(parcel)
  {
    if parcel.Again? {
      assert (forall r :: r in parcel.group ==> r.verdict.None?)
        <==> forall j :: 0 <= j < |parcel.group| ==> parcel.group[j].verdict.None?;
    }
  }

  /** A record of the log after a parcel landed: a rewritten version under its old number, the
      last the parcel has of its id, or itself if the parcel has none. */
  ghost predicate LandedAs(before: Record, after: Record, records: seq<Record>) {
    if forall j :: 0 <= j < |records| ==> records[j].id != before.id then after == before
    else exists j :: 0 <= j < |records| && after == records[j].(seqNo := before.seqNo) && records[j].id == before.id
           && forall k :: j < k < |records| ==> records[k].id != before.id
  }

  lemma ReplacedOrNot(log: seq<Record>, records: seq<Record>, p: nat)
    requires p < |log|
    ensures LandedAs(log[p], if StoreSpec.HasId(records, |records|, log[p].id)
                             then records[StoreSpec.LastWith(records, |records|, log[p].id)].(seqNo := log[p].seqNo) else log[p],
                     records)
  {}

  /** Taking records up touches nothing but the calls under way; delivering them touches the
      service; only a commit touches the log: new records go behind it, rewritten ones where
      their ids still are. */
  lemma FlightsDo(cfg: Config, w: World, h: RetryFlights.Hall, act: RetryFlights.Act, i: nat)
    requires RetryFlights.Usable(act) && RetryFlights.Sane(h)
    ensures var h' := RetryFlights.Do(cfg, w, h, act, i);
      match act
      case Take(events, ids, parents, friction) =>
        h' == h.(flights := h.flights + [RetryFlights.Boarded(RetryFlights.Fresh(events, ids, parents), friction)])
      case TakeGroup(wanted, key, friction) =>
        && |h'.flights| == |h.flights| + 1 && h' == h.(flights := h'.flights) && h.flights <= h'.flights
        && var flight := h'.flights[|h.flights|];
        && flight.Boarded? && flight.parcel.Again? && flight.parcel.key == key && flight.friction == friction
        && forall r :: r in flight.parcel.group <==> r in h.log && Eligible(r, wanted, key)
      case Post(f) =>
        && h'.log == h.log && OnlyFlight(h.flights, h'.flights, f)
        && (f < |h.flights| && h.flights[f].Boarded? ==>
              && h'.flights[f].Answered? && h'.flights[f].parcel == h.flights[f].parcel
              && (h'.service, h'.flights[f].outcome)
                 == Deliver(cfg, h.service, Mock, h.flights[f].friction, EventsCarried(h.flights[f].parcel),
                            KeyToUse(h.flights[f].parcel), w, i))
        && (f < |h.flights| && !h.flights[f].Boarded? ==> h' == h)
      case Land(f, committed) =>
        && h'.service == h.service && h'.ingested == h.ingested && OnlyFlight(h.flights, h'.flights, f)
        && (f < |h.flights| && h.flights[f].Answered? ==>
              h'.flights[f].Landed?
              && var records := RetryFlights.Built(h.flights[f].parcel, h.flights[f].outcome);
              if !committed then h'.log == h.log
              else if h.flights[f].parcel.Fresh? then h'.log == h.log + records
              else |h'.log| == |h.log| && forall p :: 0 <= p < |h.log| ==> LandedAs(h.log[p], h'.log[p], records))
        && (f < |h.flights| && !h.flights[f].Answered? ==> h' == h)
  {
    hide Deliver, Accepted, StoreSpec.HasId, StoreSpec.LastWith, RetryFlights.Built, LandedAs, Eligible;
    match act
    case Take(_, _, _, _) =>
    case TakeGroup(wanted, key, _) =>
      assert h.log[..|h.log|] == h.log;
      forall r ensures r in Group(h.log, |h.log|, wanted, key) <==> r in h.log && Eligible(r, wanted, key) {
        GroupIsEligible(h.log, |h.log|, wanted, key, r);
      }
    case Post(f) =>
      if f < |h.flights| && h.flights[f].Boarded? {
        KeyIsAsked(h.flights[f].parcel);
      }
    case Land(f, committed) =>
      if f < |h.flights| && h.flights[f].Answered? {
        var records := RetryFlights.Built(h.flights[f].parcel, h.flights[f].outcome);
        forall p | 0 <= p < |h.log| ensures LandedAs(h.log[p], RetryFlights.Landing(h.log, RetryFlights.Again([], None), records)[p], records) {
          ReplacedOrNot(h.log, records, p);
        }
      }
  }
}
