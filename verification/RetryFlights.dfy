/**
 Imports and retries that overlap: each takes its snapshot, is delivered and commits at three
 different moments, and posted still means ingested exactly as long as no commit is misled.
 */
module RetryFlights {
  import opened Common
  import opened Records
  import opened MockSpec
  import opened Pairing
  import opened Delivery
  import opened DeliveryTotals
  import opened Retry
  import RetryExact
  import RetryRuns
  import StoreSpec

  /** What a call carries between its locks: events for new records, or records to rewrite. */
  datatype Parcel =
    | Fresh(events: seq<Event>, ids: seq<nat>, parents: seq<seq<string>>)
    | Again(group: seq<Record>, key: Option<string>)

  /** `cached` is history: the answer the request was replayed, if it was. */
  datatype Flight =
    | Boarded(parcel: Parcel, friction: seq<string>)
    | Answered(parcel: Parcel, outcome: Outcome, cached: Option<seq<Verdict>>)
    | Landed

  datatype Hall = Hall(service: Service, log: seq<Record>, ingested: set<nat>, flights: seq<Flight>)

  datatype Act =
    | Take(events: seq<Event>, ids: seq<nat>, parents: seq<seq<string>>, friction: seq<string>)
    | TakeGroup(wanted: set<nat>, key: Option<string>, friction: seq<string>)
    | Post(flight: nat)
    | Land(flight: nat, committed: bool)

  predicate Usable(act: Act) {
    act.Take? ==> |act.ids| == |act.parents| == |act.events|
  }

  predicate Complete(parcel: Parcel) {
    parcel.Fresh? ==> |parcel.ids| == |parcel.parents| == |parcel.events|
  }

  function EventsOf(parcel: Parcel): seq<Event> {
    match parcel
    case Fresh(events, _, _) => events
    case Again(group, _) => EventsIn(group)
  }

  function IdsOf(parcel: Parcel): (ids: seq<nat>)
    requires Complete(parcel)
    ensures |ids| == |EventsOf(parcel)|
  {
    match parcel
    case Fresh(_, ids, _) => ids
    case Again(group, _) => IdsIn(group)
  }

  function KeyAsked(parcel: Parcel): Option<string> {
    if parcel.Again? && Reuses(parcel.group, parcel.key) then parcel.key else None
  }

  /** The records a parcel puts in the log. */
  function Built(parcel: Parcel, outcome: Outcome): (r: seq<Record>)
    requires Complete(parcel)
    ensures |r| == |EventsOf(parcel)|
  {
    match parcel
    case Fresh(events, ids, parents) => RecordsFor(ids, events, parents, Mock, outcome)
    case Again(group, _) => RetriedAll(group, outcome)
  }

  /** New records go to the end; rewritten ones replace, by id, those that are still there. */
  function Landing(log: seq<Record>, parcel: Parcel, records: seq<Record>): (r: seq<Record>) {
    match parcel
    case Fresh(_, _, _) => log + records
    case Again(_, _) =>
      seq(|log|, p requires 0 <= p < |log| =>
        if StoreSpec.HasId(records, |records|, log[p].id)
        then records[StoreSpec.LastWith(records, |records|, log[p].id)].(seqNo := log[p].seqNo) else log[p])
  }

  function RequestFor(w: World, parcel: Parcel, friction: seq<string>, i: nat): Request {
    RequestOf(EventsOf(parcel), KeyUsed(KeyAsked(parcel), w, i), friction, w, i)
  }

  ghost predicate Sane(h: Hall) {
    forall f :: 0 <= f < |h.flights| && !h.flights[f].Landed? ==> Complete(h.flights[f].parcel)
  }

  function Do(cfg: Config, w: World, h: Hall, act: Act, i: nat): Hall
    requires Usable(act) && Sane(h)
  {
    match act
    case Take(events, ids, parents, friction) =>
      h.(flights := h.flights + [Boarded(Fresh(events, ids, parents), friction)])
    case TakeGroup(wanted, key, friction) =>
      h.(flights := h.flights + [Boarded(Again(Group(h.log, |h.log|, wanted, key), key), friction)])
    case Post(f) =>
      if f >= |h.flights| || !h.flights[f].Boarded? then h
      else
        var parcel, friction := h.flights[f].parcel, h.flights[f].friction;
        var req := RequestFor(w, parcel, friction, i);
        var (m', outcome) := Deliver(cfg, h.service, Mock, friction, EventsOf(parcel), KeyAsked(parcel), w, i);
        Hall(m', h.log, h.ingested + Accepted(cfg, h.service, req, IdsOf(parcel)),
             h.flights[f := Answered(parcel, outcome, RetryExact.Cached(cfg, h.service, req))])
    case Land(f, committed) =>
      if f >= |h.flights| || !h.flights[f].Answered? then h
      else
        var flight := h.flights[f];
        h.(flights := h.flights[f := Landed],
           log := if committed then Landing(h.log, flight.parcel, Built(flight.parcel, flight.outcome)) else h.log)
  }

  // ------------------------------------------------------------------ one commit

  /** The log gets this record of the parcel: it is new, or its id is still in the log and it
      is the last of the parcel with that id. */
  predicate Shown(log: seq<Record>, parcel: Parcel, j: nat)
    requires Complete(parcel) && j < |EventsOf(parcel)|
  {
    var ids := IdsOf(parcel);
    parcel.Again? ==> StoreSpec.HasId(log, |log|, ids[j]) && forall k :: j < k < |ids| ==> ids[k] != ids[j]
  }

  /** Replayed an answer of its own size, the parcel shows an event posted that by now is not
      ingested: the answer accepts it, or does not mention it. */
  predicate MisledAt(log: seq<Record>, ingested: set<nat>, flight: Flight, j: nat)
    requires flight.Answered? && Complete(flight.parcel) && j < |EventsOf(flight.parcel)|
  {
    var events := EventsOf(flight.parcel);
    && flight.cached.Some? && |flight.cached.value| == |events|
    && IdsOf(flight.parcel)[j] !in ingested && ReadsPosted(Paired(events, flight.cached.value, j))
    && Shown(log, flight.parcel, j)
  }

  predicate Misled(h: Hall, act: Act)
    requires Sane(h)
  {
    && act.Land? && act.committed && act.flight < |h.flights| && h.flights[act.flight].Answered?
    && var flight := h.flights[act.flight];
      exists j :: 0 <= j < |EventsOf(flight.parcel)| && MisledAt(h.log, h.ingested, flight, j)
  }

  predicate ReadsPostedAt(flight: Flight, j: nat)
    requires flight.Answered? && j < |EventsOf(flight.parcel)|
  {
    var events := EventsOf(flight.parcel);
    StatusOf(flight.outcome, Paired(events, ReplyEvents(flight.outcome), j)) == Posted
  }

  predicate ReplayedAt(flight: Flight, j: nat)
    requires flight.Answered? && j < |EventsOf(flight.parcel)|
  {
    var events := EventsOf(flight.parcel);
    flight.cached.Some? && |flight.cached.value| == |events| && ReadsPosted(Paired(events, flight.cached.value, j))
  }

  /** What an answered flight shows posted was ingested or replayed. */
  ghost predicate Accounted(flight: Flight, ingested: set<nat>)
    requires flight.Answered? && Complete(flight.parcel)
  {
    forall j :: 0 <= j < |EventsOf(flight.parcel)| ==>
      && (ReplayedAt(flight, j) ==> ReadsPostedAt(flight, j))
      && (ReadsPostedAt(flight, j) ==> ReplayedAt(flight, j) || IdsOf(flight.parcel)[j] in ingested)
  }

  ghost predicate AllAccounted(h: Hall) {
    Sane(h) && forall f :: 0 <= f < |h.flights| && h.flights[f].Answered? ==> Accounted(h.flights[f], h.ingested)
  }

  lemma BuiltStatus(flight: Flight, j: nat)
    requires flight.Answered? && Complete(flight.parcel) && j < |EventsOf(flight.parcel)|
    ensures var r := Built(flight.parcel, flight.outcome)[j];
      r.id == IdsOf(flight.parcel)[j] && (r.status == Posted <==> ReadsPostedAt(flight, j))
  {
    hide Paired, ErrorOf, StatusOf;
  }

  // ------------------------------------------------------------------ each step

  lemma ReplayIsAccounted(flight: Flight, ingested: set<nat>)
    requires flight.Answered? && Complete(flight.parcel) && flight.cached.Some?
    requires flight.outcome.reply.Some? && flight.outcome.reply.value.events == flight.cached.value
    requires flight.outcome.status == if |flight.cached.value| == |EventsOf(flight.parcel)| then Posted else Failed
    ensures Accounted(flight, ingested)
  {
    hide Paired, EventsOf, IdsOf;
  }

  lemma TruthIsAccounted(flight: Flight, ingested: set<nat>)
    requires flight.Answered? && Complete(flight.parcel) && flight.cached.None?
    requires RetryExact.TellsTruth(flight.outcome, EventsOf(flight.parcel), IdsOf(flight.parcel), ingested)
    ensures Accounted(flight, ingested)
  {
    hide Paired, EventsOf, IdsOf, StatusOf;
  }

  /** A request leaves its flight accounted for. */
  lemma PostAccounts(cfg: Config, w: World, h: Hall, parcel: Parcel, friction: seq<string>, i: nat)
    requires Complete(parcel)
    ensures var req := RequestFor(w, parcel, friction, i);
      var outcome := Deliver(cfg, h.service, Mock, friction, EventsOf(parcel), KeyAsked(parcel), w, i).1;
      Accounted(Answered(parcel, outcome, RetryExact.Cached(cfg, h.service, req)),
                h.ingested + Accepted(cfg, h.service, req, IdsOf(parcel)))
  {
    hide Gate, Replays, Answer, RetryExact.TellsTruth, RetryExact.MisledBy, Accounted, Paired, Slot, EventsOf, IdsOf, KeyAsked;
    hide KeyUsed, Accepted;
    var m := h.service;
    var events, ids, asked := EventsOf(parcel), IdsOf(parcel), KeyAsked(parcel);
    var req := RequestFor(w, parcel, friction, i);
    var outcome := Deliver(cfg, m, Mock, friction, events, asked, w, i).1;
    var cached := RetryExact.Cached(cfg, m, req);
    var more := h.ingested + Accepted(cfg, m, req, ids);
    if cached.Some? {
      RetryExact.ReplayedEntry(cfg, m, req);
      ReplayIsAccounted(Answered(parcel, outcome, cached), more);
    } else {
      RetryExact.RequestTellsTruthIff(cfg, m, friction, events, ids, asked, w, i, h.ingested);
      RetryExact.NotCached(events, ids, h.ingested);
      TruthIsAccounted(Answered(parcel, outcome, cached), more);
    }
  }

  lemma AccountedMore(flight: Flight, ingested: set<nat>, more: set<nat>)
    requires flight.Answered? && Complete(flight.parcel) && Accounted(flight, ingested) && ingested <= more
    ensures Accounted(flight, more)
  {
    hide ReplayedAt, ReadsPostedAt;
  }

  lemma DoKeepsAccounted(cfg: Config, w: World, h: Hall, act: Act, i: nat)
    requires Usable(act) && AllAccounted(h)
    ensures AllAccounted(Do(cfg, w, h, act, i))
  {
    hide Accounted, Accepted, Deliver, RetryExact.Cached, EventsOf, Landing, Group, Built;
    var h' := Do(cfg, w, h, act, i);
    if act.Post? && act.flight < |h.flights| && h.flights[act.flight].Boarded? {
      PostAccounts(cfg, w, h, h.flights[act.flight].parcel, h.flights[act.flight].friction, i);
    }
    forall f | 0 <= f < |h'.flights| && h'.flights[f].Answered? ensures Accounted(h'.flights[f], h'.ingested) {
      if f < |h.flights| && h'.flights[f] == h.flights[f] {
        AccountedMore(h.flights[f], h.ingested, h'.ingested);
      }
    }
  }

  lemma AppendedHonestIff(log: seq<Record>, parcel: Parcel, records: seq<Record>, ingested: set<nat>)
    requires parcel.Fresh? && RetryRuns.Honest(log, ingested)
    ensures RetryRuns.Honest(Landing(log, parcel, records), ingested)
      <==> forall j :: 0 <= j < |records| && records[j].status == Posted ==> records[j].id in ingested
  {
    var all := log + records;
    if RetryRuns.Honest(all, ingested) {
      forall j | 0 <= j < |records| && records[j].status == Posted ensures records[j].id in ingested {
        assert all[|log| + j] == records[j];
      }
    }
  }

  /** The log gets record `j` of those that replace. */
  predicate Replaces(log: seq<Record>, records: seq<Record>, j: nat)
    requires j < |records|
  {
    StoreSpec.HasId(log, |log|, records[j].id) && forall k :: j < k < |records| ==> records[k].id != records[j].id
  }

  lemma LastIsLast(records: seq<Record>, j: nat)
    requires j < |records| && forall k :: j < k < |records| ==> records[k].id != records[j].id
    ensures StoreSpec.HasId(records, |records|, records[j].id)
    ensures StoreSpec.LastWith(records, |records|, records[j].id) == j
  {}

  lemma ReplacedHonestIff(log: seq<Record>, parcel: Parcel, records: seq<Record>, ingested: set<nat>)
    requires parcel.Again? && RetryRuns.Honest(log, ingested)
    ensures RetryRuns.Honest(Landing(log, parcel, records), ingested)
      <==> forall j :: 0 <= j < |records| && records[j].status == Posted && Replaces(log, records, j) ==> records[j].id in ingested
  {
    hide StoreSpec.LastWith;
    var log' := Landing(log, parcel, records);
    if RetryRuns.Honest(log', ingested) {
      forall j | 0 <= j < |records| && records[j].status == Posted && Replaces(log, records, j) ensures records[j].id in ingested {
        LastIsLast(records, j);
        var p: nat :| p < |log| && log[p].id == records[j].id;
        assert log'[p].status == records[j].status;
      }
    } else {
      var p: nat :| p < |log| && log'[p].status == Posted && log'[p].id !in ingested;
      assert StoreSpec.HasId(records, |records|, log[p].id);
      var j := StoreSpec.LastWith(records, |records|, log[p].id);
      assert Replaces(log, records, j);
    }
  }

  lemma ShownIffReplaces(log: seq<Record>, parcel: Parcel, outcome: Outcome, j: nat)
    requires Complete(parcel) && parcel.Again? && j < |EventsOf(parcel)|
    ensures Shown(log, parcel, j) <==> Replaces(log, Built(parcel, outcome), j)
  {
    hide Paired, ErrorOf, StatusOf;
    var records := Built(parcel, outcome);
    assert forall k :: 0 <= k < |records| ==> records[k].id == IdsOf(parcel)[k];
  }

  lemma FreshIsShown(log: seq<Record>, parcel: Parcel, j: nat)
    requires Complete(parcel) && j < |EventsOf(parcel)|
    ensures parcel.Fresh? ==> Shown(log, parcel, j)
  {}

  /** A commit keeps an honest log honest if and only if it is not misled. */
  lemma LandHonestIff(h: Hall, flight: Flight)
    requires flight.Answered? && Complete(flight.parcel) && Accounted(flight, h.ingested) && RetryRuns.Honest(h.log, h.ingested)
    ensures RetryRuns.Honest(Landing(h.log, flight.parcel, Built(flight.parcel, flight.outcome)), h.ingested)
      <==> !exists j :: 0 <= j < |EventsOf(flight.parcel)| && MisledAt(h.log, h.ingested, flight, j)
  {
    hide EventsOf, IdsOf, Built, Landing, Shown, Replaces, Paired, RetryRuns.Honest, ReadsPosted, ReadsPostedAt;
    var parcel := flight.parcel;
    var records := Built(parcel, flight.outcome);
    if parcel.Fresh? {
      AppendedHonestIff(h.log, parcel, records, h.ingested);
    } else {
      ReplacedHonestIff(h.log, parcel, records, h.ingested);
    }
    forall j: nat | j < |records|
      ensures MisledAt(h.log, h.ingested, flight, j) <==>
        records[j].status == Posted && records[j].id !in h.ingested && (parcel.Again? ==> Replaces(h.log, records, j))
    {
      BuiltStatus(flight, j);
      FreshIsShown(h.log, parcel, j);
      if parcel.Again? {
        ShownIffReplaces(h.log, parcel, flight.outcome, j);
      }
    }
  }

  /** And so does every act: a snapshot, a request or a commit. */
  lemma DoHonestIff(cfg: Config, w: World, h: Hall, act: Act, i: nat)
    requires Usable(act) && AllAccounted(h) && RetryRuns.Honest(h.log, h.ingested)
    ensures var h' := Do(cfg, w, h, act, i);
      RetryRuns.Honest(h'.log, h'.ingested) <==> !Misled(h, act)
  {
    hide Accounted, Accepted, Deliver, RetryExact.Cached, EventsOf, IdsOf, Landing, Group, Built, MisledAt, RetryRuns.Honest;
    var h' := Do(cfg, w, h, act, i);
    RetryRuns.HonestMore(h.log, h.ingested, h'.ingested);
    if act.Land? && act.flight < |h.flights| && h.flights[act.flight].Answered? {
      LandHonestIff(h, h.flights[act.flight]);
    }
  }

  // ------------------------------------------------------------------ whole runs

  predicate AllUsable(acts: seq<Act>) {
    forall k :: 0 <= k < |acts| ==> Usable(acts[k])
  }

  const NOTHING: Hall := Hall(Service("", []), [], {}, [])

  function Play(cfg: Config, w: World, acts: seq<Act>): (h: Hall)
    requires AllUsable(acts)
    ensures Sane(h)
    decreases |acts|
  {
    if acts == [] then NOTHING
    else Do(cfg, w, Play(cfg, w, acts[..|acts| - 1]), acts[|acts| - 1], |acts| - 1)
  }

  /** No commit of the run is misled. */
  predicate NeverMisled(cfg: Config, w: World, acts: seq<Act>)
    requires AllUsable(acts)
    decreases |acts|
  {
    acts == [] || (NeverMisled(cfg, w, acts[..|acts| - 1]) && !Misled(Play(cfg, w, acts[..|acts| - 1]), acts[|acts| - 1]))
  }

  /** At every moment of the run a record that reads posted was ingested. */
  ghost predicate AlwaysHonest(cfg: Config, w: World, acts: seq<Act>)
    requires AllUsable(acts)
    decreases |acts|
  {
    (acts == [] || AlwaysHonest(cfg, w, acts[..|acts| - 1]))
    && RetryRuns.Honest(Play(cfg, w, acts).log, Play(cfg, w, acts).ingested)
  }

  lemma {:induction false} RunIsAccounted(cfg: Config, w: World, acts: seq<Act>)
    requires AllUsable(acts)
    ensures AllAccounted(Play(cfg, w, acts))
    decreases |acts|
  {
    if acts == [] {
    } else {
      hide Do, AllAccounted;
      RunIsAccounted(cfg, w, acts[..|acts| - 1]);
      DoKeepsAccounted(cfg, w, Play(cfg, w, acts[..|acts| - 1]), acts[|acts| - 1], |acts| - 1);
    }
  }

  lemma HonestAtEnd(cfg: Config, w: World, acts: seq<Act>)
    requires AllUsable(acts) && AlwaysHonest(cfg, w, acts)
    ensures RetryRuns.Honest(Play(cfg, w, acts).log, Play(cfg, w, acts).ingested)
  {}

  /** However imports and retries overlap, posted means ingested throughout if and only if no
      commit is misled. */
  lemma {:induction false} PostedMeansIngestedIff(cfg: Config, w: World, acts: seq<Act>)
    requires AllUsable(acts)
    ensures AlwaysHonest(cfg, w, acts) <==> NeverMisled(cfg, w, acts)
    decreases |acts|
  {
    if acts == [] {
    } else {
      hide Do, AllAccounted, Misled, RetryRuns.Honest;
      var n := |acts| - 1;
      PostedMeansIngestedIff(cfg, w, acts[..n]);
      RunIsAccounted(cfg, w, acts[..n]);
      if NeverMisled(cfg, w, acts[..n]) {
        HonestAtEnd(cfg, w, acts[..n]);
        DoHonestIff(cfg, w, Play(cfg, w, acts[..n]), acts[n], n);
      }
    }
  }
}
