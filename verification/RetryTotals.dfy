/**
 What a retry reports against the records it rewrote: one count per group, and over all the
 groups exactly when the sums are right.
 */
module RetryTotals {
  import opened Common
  import opened Records
  import opened MockSpec
  import opened MockService
  import opened Pairing
  import opened Delivery
  import opened DeliveryTotals
  import opened Retry
  import RetryExact
  import RetrySplit

  // ------------------------------------------------------------------ answers used

  /** The places of the answers that the first `n` events took. */
  function Used(events: seq<Event>, answers: seq<Verdict>, n: nat): (used: set<nat>)
    requires n <= |events|
    ensures forall p :: p in used ==> p < |answers|
  {
    if n == 0 then {}
    else
      var last := Chosen(events, answers, n - 1);
      Used(events, answers, n - 1) + if last.Some? then {last.value} else {}
  }

  lemma {:induction false} UsedBy(events: seq<Event>, answers: seq<Verdict>, n: nat, p: nat) returns (i: nat)
    requires n <= |events| && p in Used(events, answers, n)
    ensures i < n && Chosen(events, answers, i) == Some(p)
  {
    hide Chosen;
    if Chosen(events, answers, n - 1) == Some(p) {
      i := n - 1;
    } else {
      i := UsedBy(events, answers, n - 1, p);
    }
  }

  lemma NextIsUnused(events: seq<Event>, answers: seq<Verdict>, n: nat)
    requires n < |events| && Chosen(events, answers, n).Some?
    ensures Chosen(events, answers, n).value !in Used(events, answers, n)
  {
    hide Chosen, Used;
    var p := Chosen(events, answers, n).value;
    if p in Used(events, answers, n) {
      var i := UsedBy(events, answers, n, p);
      UsedAtMostOnce(events, answers, i, n);
    }
  }

  function AcceptedPlaces(answers: seq<Verdict>, n: nat): (r: set<nat>)
    requires n <= |answers|
    ensures forall p :: p in r <==> 0 <= p < n && answers[p].accepted
  {
    set p | 0 <= p < n && answers[p].accepted
  }

  function Places(n: nat): (r: set<nat>)
    ensures forall p :: p in r <==> 0 <= p < n
  {
    if n == 0 then {} else Places(n - 1) + {n - 1}
  }

  lemma {:induction false} PlacesAre(n: nat)
    ensures |Places(n)| == n
  {
    if n == 0 {
    } else {
      PlacesAre(n - 1);
    }
  }

  lemma {:induction false} AcceptedPlacesAre(answers: seq<Verdict>, n: nat)
    requires n <= |answers|
    ensures |AcceptedPlaces(answers, n)| == AcceptedAmong(answers, n)
  {
    if n == 0 {
    } else {
      AcceptedPlacesAre(answers, n - 1);
      if answers[n - 1].accepted {
        assert AcceptedPlaces(answers, n) == AcceptedPlaces(answers, n - 1) + {n - 1};
      } else {
        assert AcceptedPlaces(answers, n) == AcceptedPlaces(answers, n - 1);
      }
    }
  }

  /** How many of the first `n` events read posted when their request went through. */
  function ReadPosted(events: seq<Event>, answers: seq<Verdict>, n: nat): nat
    requires n <= |events|
  {
    if n == 0 then 0
    else ReadPosted(events, answers, n - 1) + if ReadsPosted(Paired(events, answers, n - 1)) then 1 else 0
  }

  lemma PairedIsChosen(events: seq<Event>, answers: seq<Verdict>, i: nat)
    requires i < |events|
    ensures var p := Chosen(events, answers, i);
      Paired(events, answers, i) == if p.Some? then Some(answers[p.value]) else None
  {}

  lemma OneMoreUsed(used: set<nat>, good: set<nat>, p: nat)
    requires p !in used
    ensures |used + {p}| == |used| + 1
    ensures |(used + {p}) * good| == |used * good| + if p in good then 1 else 0
  {
    if p in good {
      assert (used + {p}) * good == used * good + {p};
    } else {
      assert (used + {p}) * good == used * good;
    }
  }

  lemma NothingRead(events: seq<Event>, answers: seq<Verdict>, good: set<nat>)
    ensures ReadPosted(events, answers, 0) == 0
    ensures |Used(events, answers, 0)| == 0 && |Used(events, answers, 0) * good| == 0
  {
    assert Used(events, answers, 0) * good == {};
  }

  lemma OneMoreRead(events: seq<Event>, answers: seq<Verdict>, n: nat, good: set<nat>)
    requires n < |events| && forall p :: p in good <==> 0 <= p < |answers| && answers[p].accepted
    ensures var before, used := Used(events, answers, n), Used(events, answers, n + 1);
      ReadPosted(events, answers, n + 1) - ReadPosted(events, answers, n)
      == 1 - (|used| - |before|) + (|used * good| - |before * good|)
  {
    hide Chosen, Paired;
    var before := Used(events, answers, n);
    var p := Chosen(events, answers, n);
    PairedIsChosen(events, answers, n);
    assert Used(events, answers, n + 1) == before + if p.Some? then {p.value} else {};
    if p.Some? {
      NextIsUnused(events, answers, n);
      hide Used;
      OneMoreUsed(before, good, p.value);
    } else {
      assert before + {} == before;
    }
  }

  /** An event reads posted if it took an accepted answer, or none. */
  lemma {:induction false} ReadPostedCounts(events: seq<Event>, answers: seq<Verdict>, n: nat, good: set<nat>)
    requires n <= |events| && forall p :: p in good <==> 0 <= p < |answers| && answers[p].accepted
    ensures var used := Used(events, answers, n);
      ReadPosted(events, answers, n) == n - |used| + |used * good|
  {
    hide ReadPosted, Used;
    if n == 0 {
      NothingRead(events, answers, good);
    } else {
      ReadPostedCounts(events, answers, n - 1, good);
      OneMoreRead(events, answers, n - 1, good);
    }
  }

  /** The rejections no event of the request took. */
  function LeftOver(events: seq<Event>, answers: seq<Verdict>): set<nat> {
    Places(|answers|) - AcceptedPlaces(answers, |answers|) - Used(events, answers, |events|)
  }

  lemma SplitsByGood(all: set<nat>, used: set<nat>, good: set<nat>)
    requires used <= all && good <= all
    ensures |all| - |used| + |used * good| == |good| + |all - good - used|
  {
    assert all == (used * good) + (used - good) + (good - used) + (all - good - used);
    assert used == (used * good) + (used - good);
    assert good == (used * good) + (good - used);
  }

  /** As many events read posted as the answer accepts, and one for each rejection left over. */
  lemma LeftOverReadsPosted(events: seq<Event>, answers: seq<Verdict>)
    requires |events| == |answers|
    ensures ReadPosted(events, answers, |events|) == AcceptedAmong(answers, |answers|) + |LeftOver(events, answers)|
  {
    hide Used, AcceptedPlaces, Places, ReadPosted, AcceptedAmong;
    PlacesAre(|answers|);
    AcceptedPlacesAre(answers, |answers|);
    ReadPostedCounts(events, answers, |events|, AcceptedPlaces(answers, |answers|));
    SplitsByGood(Places(|answers|), Used(events, answers, |events|), AcceptedPlaces(answers, |answers|));
  }

  /** One replayed rejection of another lot: the record reads posted, the answer accepts nothing. */
  lemma StrangersRejection(e: Event, v: Verdict)
    requires !Names(v, KeyOf(e)) && !v.accepted
    ensures ReadPosted([e], [v], 1) == 1 && AcceptedAmong([v], 1) == 0 && LeftOver([e], [v]) == {0}
  {
    assert AnswersAmong([v], 1, KeyOf(e)) == [];
    assert Pairing.Places([v], 1, KeyOf(e)) == [];
    assert ReadPosted([e], [v], 0) == 0 && AcceptedAmong([v], 0) == 0;
    assert Used([e], [v], 0) == {};
  }

  // ------------------------------------------------------------------ one group

  /** A response counts the verdicts it carries, as every answer of the mock does. */
  predicate CountsItself(response: Response) {
    response.accepted == AcceptedAmong(response.events, |response.events|)
    && response.accepted + response.rejected == |response.events|
  }

  predicate CacheCounts(m: Service) {
    forall s :: 0 <= s < |m.cache| ==> CountsItself(m.cache[s].response)
  }

  lemma IngestKeepsCounts(cfg: Config, m: Service, req: Request)
    requires CacheCounts(m)
    ensures CacheCounts(Ingest(cfg, m, req).0)
    ensures Ingest(cfg, m, req).1.Ok? ==> CountsItself(Ingest(cfg, m, req).1.value)
  {
    hide Gate, AcceptedAmong, StaleAmong, ChainAfter, VerdictAt, Slot;
  }

  /** The rejections an outcome leaves over: none unless its request went through. */
  function LeftBy(group: seq<Record>, outcome: Outcome): nat {
    if outcome.status == Posted then |LeftOver(EventsIn(group), ReplyEvents(outcome))| else 0
  }

  lemma RetriedStatus(group: seq<Record>, outcome: Outcome, j: nat)
    requires j < |group| && (outcome.status == Posted || outcome.status == Failed)
    ensures RetriedAll(group, outcome)[j].status
      == if outcome.status == Posted && ReadsPosted(Paired(EventsIn(group), ReplyEvents(outcome), j)) then Posted else Failed
  {
    hide Paired, ErrorOf, ReplyEvents;
  }

  lemma {:induction false} StatusCounts(records: seq<Record>, events: seq<Event>, answers: seq<Verdict>, n: nat)
    requires n <= |records| && n <= |events|
    requires forall j :: 0 <= j < n ==> records[j].status == if ReadsPosted(Paired(events, answers, j)) then Posted else Failed
    ensures CountStatus(records, n, Posted) == ReadPosted(events, answers, n)
    ensures CountStatus(records, n, Failed) == n - ReadPosted(events, answers, n)
  {
    hide Paired, ReadsPosted;
    if n == 0 {
    } else {
      StatusCounts(records, events, answers, n - 1);
    }
  }

  lemma RetriedCounts(group: seq<Record>, outcome: Outcome)
    requires outcome.status == Posted || outcome.status == Failed
    ensures var posted := if outcome.status == Posted then ReadPosted(EventsIn(group), ReplyEvents(outcome), |group|) else 0;
      Counts(RetriedAll(group, outcome), posted, |group| - posted)
  {
    hide Paired, RetriedAll, ReadsPosted, ReadPosted, ReplyEvents, EventsIn, CountStatus;
    var records := RetriedAll(group, outcome);
    forall j: nat | j < |group| ensures records[j].status
      == if outcome.status == Posted && ReadsPosted(Paired(EventsIn(group), ReplyEvents(outcome), j)) then Posted else Failed
    {
      RetriedStatus(group, outcome, j);
    }
    if outcome.status == Posted {
      StatusCounts(records, EventsIn(group), ReplyEvents(outcome), |group|);
    } else {
      FailedChunk(records, |group|);
    }
  }

  datatype Part = Part(group: seq<Record>, outcome: Outcome)

  /** The records of one group are posted as often as its outcome counts, and once more for
      each rejection left over; the others are failed. */
  ghost predicate AddsUp(part: Part) {
    var left := LeftBy(part.group, part.outcome);
    Counts(RetriedAll(part.group, part.outcome), part.outcome.posted + left, part.outcome.failed - left)
  }

  /** An outcome that counts what its request carried. */
  predicate OutcomeCounts(outcome: Outcome, n: nat) {
    || (outcome.status == Failed && outcome.posted == 0 && outcome.failed == n)
    || (&& outcome.status == Posted && |ReplyEvents(outcome)| == n
        && outcome.posted == AcceptedAmong(ReplyEvents(outcome), n) && outcome.posted + outcome.failed == n)
  }

  lemma SendCounts(cfg: Config, m: Service, friction: seq<string>, group: seq<Record>, key: Option<string>, w: World, i: nat)
    requires CacheCounts(m)
    ensures CacheCounts(Send(cfg, m, friction, group, key, w, i).0)
    ensures OutcomeCounts(Send(cfg, m, friction, group, key, w, i).1, |group|)
  {
    hide Ingest, Reuses, AcceptedAmong, CacheCounts;
    var used := KeyUsed(if Reuses(group, key) then key else None, w, i);
    IngestKeepsCounts(cfg, m, RequestOf(EventsIn(group), used, friction, w, i));
  }

  lemma CountedAddsUp(group: seq<Record>, outcome: Outcome)
    requires OutcomeCounts(outcome, |group|)
    ensures AddsUp(Part(group, outcome))
  {
    hide RetriedAll, LeftOver, ReadPosted, CountStatus, AcceptedAmong, ReplyEvents;
    RetriedCounts(group, outcome);
    if outcome.status == Posted {
      LeftOverReadsPosted(EventsIn(group), ReplyEvents(outcome));
    }
  }

  lemma {:induction false} OwnReadsPosted(events: seq<Event>, own: seq<Verdict>, n: nat)
    requires |own| == |events| && Right(events, own, own) && n <= |events|
    ensures ReadPosted(events, own, n) == AcceptedAmong(own, n)
  {
    hide Paired;
    if n == 0 {
    } else {
      OwnReadsPosted(events, own, n - 1);
      assert Paired(events, own, n - 1) == Some(own[n - 1]);
    }
  }

  /** A fresh answer leaves nothing over. */
  lemma FreshLeavesNothing(events: seq<Event>, own: seq<Verdict>)
    requires Own(events, own)
    ensures LeftOver(events, own) == {}
  {
    hide Own, Paired, Names;
    assert |own| == |events| by { OwnIsOne(events, own); }
    RequestOrderIsRight(events, own);
    OwnReadsPosted(events, own, |events|);
    LeftOverReadsPosted(events, own);
  }

  // ------------------------------------------------------------------ all the groups

  /** The groups sent from the `j`-th on, unless the store moves first. */
  function Retrying(cfg: Config, m: Service, friction: seq<string>, keys: seq<GroupKey>,
                    groups: map<GroupKey, seq<Record>>, w: World, j: nat): (Service, seq<Part>)
    requires j <= |keys|
    decreases |keys| - j
  {
    if j == |keys| || !w.goOn(j) then (m, [])
    else
      var group := GroupAt(groups, keys[j]);
      var (m', outcome) := Send(cfg, m, friction, group, keys[j].key, w, j);
      var (m'', rest) := Retrying(cfg, m', friction, keys, groups, w, j + 1);
      (m'', [Part(group, outcome)] + rest)
  }

  function UpdatedBy(parts: seq<Part>, n: nat): seq<Record>
    requires n <= |parts|
  {
    if n == 0 then [] else UpdatedBy(parts, n - 1) + RetriedAll(parts[n - 1].group, parts[n - 1].outcome)
  }

  function PostedIn(parts: seq<Part>, n: nat): int
    requires n <= |parts|
  {
    if n == 0 then 0 else PostedIn(parts, n - 1) + parts[n - 1].outcome.posted
  }

  function FailedIn(parts: seq<Part>, n: nat): int
    requires n <= |parts|
  {
    if n == 0 then 0 else FailedIn(parts, n - 1) + parts[n - 1].outcome.failed
  }

  function LeftIn(parts: seq<Part>, n: nat): nat
    requires n <= |parts|
  {
    if n == 0 then 0 else LeftIn(parts, n - 1) + LeftBy(parts[n - 1].group, parts[n - 1].outcome)
  }

  lemma {:induction false} PartsGrow(parts: seq<Part>, part: Part, n: nat)
    requires n <= |parts|
    ensures UpdatedBy(parts + [part], n) == UpdatedBy(parts, n)
    ensures PostedIn(parts + [part], n) == PostedIn(parts, n) && FailedIn(parts + [part], n) == FailedIn(parts, n)
  {
    if n == 0 {
    } else {
      hide RetriedAll;
      PartsGrow(parts, part, n - 1);
      assert (parts + [part])[n - 1] == parts[n - 1];
    }
  }

  /** What has been rewritten and counted is what the parts say. */
  ghost predicate Tally(parts: seq<Part>, updated: seq<Record>, posted: int, failed: int) {
    updated == UpdatedBy(parts, |parts|) && posted == PostedIn(parts, |parts|) && failed == FailedIn(parts, |parts|)
  }

  lemma PartAdded(parts: seq<Part>, updated: seq<Record>, posted: int, failed: int, part: Part)
    requires Tally(parts, updated, posted, failed)
    ensures Tally(parts + [part], updated + RetriedAll(part.group, part.outcome),
                  posted + part.outcome.posted, failed + part.outcome.failed)
  {
    hide RetriedAll;
    PartsGrow(parts, part, |parts|);
  }

  lemma NoPartYet()
    ensures Tally([], [], 0, 0)
  {}

  /** Each group in turn, until the store moves. */
  method SendGroups(service: MockRegEngineService, friction: seq<string>, keys: seq<GroupKey>,
                    groups: map<GroupKey, seq<Record>>, w: World)
    returns (updated: seq<Record>, posted: int, failed: int, ghost parts: seq<Part>)
    modifies service
    ensures (service.View(), parts) == Retrying(service.cfg, old(service.View()), friction, keys, groups, w, 0)
    ensures Tally(parts, updated, posted, failed)
  {
    hide Send, RetriedAll, Tally, GroupAt;
    NoPartYet();
    ghost var whole := Retrying(service.cfg, service.View(), friction, keys, groups, w, 0);
    updated, posted, failed, parts := [], 0, 0, [];
    assert parts + whole.1 == whole.1;
    for j := 0 to |keys|
      invariant Tally(parts, updated, posted, failed)
      invariant
        var (m, rest) := Retrying(service.cfg, service.View(), friction, keys, groups, w, j);
        (m, parts + rest) == whole
    {
      if !w.goOn(j) {
        assert parts + [] == parts;
        return;
      }
      ghost var before := parts;
      ghost var rest := Retrying(service.cfg, service.View(), friction, keys, groups, w, j).1;
      var group := GroupAt(groups, keys[j]);
      var more, outcome := RetryGroup(service, friction, group, keys[j].key, w, j);
      PartAdded(before, updated, posted, failed, Part(group, outcome));
      updated, posted, failed := updated + more, posted + outcome.posted, failed + outcome.failed;
      parts := parts + [Part(group, outcome)];
      assert before + rest == parts + rest[1..];
    }
    assert parts + [] == parts;
  }

  /** `retry_failed_delivery`, phase 2: the new versions of the records and the two totals. */
  method RetryDelivery(service: MockRegEngineService, friction: seq<string>, candidates: seq<Record>,
                       sourceOf: Record -> string, w: World)
    returns (updated: seq<Record>, posted: int, failed: int, ghost parts: seq<Part>)
    modifies service
    ensures exists keys, groups ::
      && Grouped(keys, groups, candidates, sourceOf, |candidates|)
      && (service.View(), parts) == Retrying(service.cfg, old(service.View()), friction, keys, groups, w, 0)
    ensures Tally(parts, updated, posted, failed)
  {
    hide Retrying, Grouped, Tally;
    var keys, groups := GroupBySourceAndKey(candidates, sourceOf);
    updated, posted, failed, parts := SendGroups(service, friction, keys, groups, w);
  }

  ghost predicate AllAddUp(parts: seq<Part>) {
    forall k :: 0 <= k < |parts| ==> AddsUp(parts[k])
  }

  lemma {:induction false} RetryingAddsUp(cfg: Config, m: Service, friction: seq<string>, keys: seq<GroupKey>,
                                          groups: map<GroupKey, seq<Record>>, w: World, j: nat)
    requires j <= |keys| && CacheCounts(m)
    ensures AllAddUp(Retrying(cfg, m, friction, keys, groups, w, j).1)
    decreases |keys| - j
  {
    hide Send, CacheCounts, AddsUp, OutcomeCounts;
    if j == |keys| || !w.goOn(j) {
    } else {
      var group := GroupAt(groups, keys[j]);
      SendCounts(cfg, m, friction, group, keys[j].key, w, j);
      CountedAddsUp(group, Send(cfg, m, friction, group, keys[j].key, w, j).1);
      RetryingAddsUp(cfg, Send(cfg, m, friction, group, keys[j].key, w, j).0, friction, keys, groups, w, j + 1);
    }
  }

  lemma OnePartMore(parts: seq<Part>, n: nat)
    requires 0 < n <= |parts| && AddsUp(parts[n - 1])
    requires Counts(UpdatedBy(parts, n - 1), PostedIn(parts, n - 1) + LeftIn(parts, n - 1),
                    FailedIn(parts, n - 1) - LeftIn(parts, n - 1))
    ensures Counts(UpdatedBy(parts, n), PostedIn(parts, n) + LeftIn(parts, n), FailedIn(parts, n) - LeftIn(parts, n))
  {
    hide LeftBy, RetriedAll, Counts;
    var part := parts[n - 1];
    var left := LeftBy(part.group, part.outcome);
    CountsJoin(UpdatedBy(parts, n - 1), RetriedAll(part.group, part.outcome),
               PostedIn(parts, n - 1) + LeftIn(parts, n - 1), FailedIn(parts, n - 1) - LeftIn(parts, n - 1),
               part.outcome.posted + left, part.outcome.failed - left);
  }

  lemma NoParts(parts: seq<Part>)
    ensures Counts(UpdatedBy(parts, 0), PostedIn(parts, 0) + LeftIn(parts, 0), FailedIn(parts, 0) - LeftIn(parts, 0))
  {}

  lemma {:induction false} PartsAddUp(parts: seq<Part>, n: nat)
    requires n <= |parts| && AllAddUp(parts)
    ensures Counts(UpdatedBy(parts, n), PostedIn(parts, n) + LeftIn(parts, n), FailedIn(parts, n) - LeftIn(parts, n))
  {
    hide AddsUp, Counts, UpdatedBy, PostedIn, FailedIn, LeftIn;
    if n == 0 {
      NoParts(parts);
    } else {
      PartsAddUp(parts, n - 1);
      OnePartMore(parts, n);
    }
  }

  // ------------------------------------------------------------------ told from the cache

  /** How many rejections the group will leave over: those in the answer of its size that the
      cache holds for its request and none of its events takes. */
  function Missed(cfg: Config, m: Service, friction: seq<string>, group: seq<Record>, key: Option<string>, w: World, i: nat): nat {
    var asked := if Reuses(group, key) then key else None;
    var cached := RetryExact.Cached(cfg, m, RequestOf(EventsIn(group), KeyUsed(asked, w, i), friction, w, i));
    if cached.Some? && |cached.value| == |group| then |LeftOver(EventsIn(group), cached.value)| else 0
  }

  lemma VerdictsAreOwn(cfg: Config, chain: Hash, events: seq<Event>, now: int)
    ensures Own(events, Verdicts(cfg, chain, events, now))
  {
    hide ErrorsAt, ChainAfter;
  }

  /** What a request leaves over is what the cache says it will; a fresh one leaves nothing. */
  lemma LeftIsMissed(cfg: Config, m: Service, friction: seq<string>, group: seq<Record>, key: Option<string>, w: World, i: nat)
    ensures LeftBy(group, Send(cfg, m, friction, group, key, w, i).1) == Missed(cfg, m, friction, group, key, w, i)
  {
    hide Gate, Replays, Verdicts, AcceptedAmong, StaleAmong, ChainAfter, LeftOver, Reuses, Slot, Own;
    var events := EventsIn(group);
    var req := RequestOf(events, KeyUsed(if Reuses(group, key) then key else None, w, i), friction, w, i);
    if Gate(req).None? {
      if Replays(cfg, m, req) {
        RetryExact.ReplayedEntry(cfg, m, req);
      } else {
        VerdictsAreOwn(cfg, m.chain, events, req.now);
        FreshLeavesNothing(events, Verdicts(cfg, m.chain, events, req.now));
      }
    }
  }

  /** The same over the groups from the `j`-th on, each asked of the service as it is by then. */
  function MissedFrom(cfg: Config, m: Service, friction: seq<string>, keys: seq<GroupKey>,
                      groups: map<GroupKey, seq<Record>>, w: World, j: nat): nat
    requires j <= |keys|
    decreases |keys| - j
  {
    if j == |keys| || !w.goOn(j) then 0
    else
      var group, key := GroupAt(groups, keys[j]), keys[j].key;
      Missed(cfg, m, friction, group, key, w, j)
      + MissedFrom(cfg, Send(cfg, m, friction, group, key, w, j).0, friction, keys, groups, w, j + 1)
  }

  lemma {:induction false} LeftInCons(part: Part, rest: seq<Part>, n: nat)
    requires n <= |rest|
    ensures LeftIn([part] + rest, n + 1) == LeftBy(part.group, part.outcome) + LeftIn(rest, n)
  {
    hide LeftBy;
    if n == 0 {
      assert LeftIn([part] + rest, 0) == 0;
    } else {
      LeftInCons(part, rest, n - 1);
      assert ([part] + rest)[n] == rest[n - 1];
    }
  }

  lemma {:induction false} LeftInIsMissed(cfg: Config, m: Service, friction: seq<string>, keys: seq<GroupKey>,
                                          groups: map<GroupKey, seq<Record>>, w: World, j: nat)
    requires j <= |keys|
    ensures var parts := Retrying(cfg, m, friction, keys, groups, w, j).1;
      LeftIn(parts, |parts|) == MissedFrom(cfg, m, friction, keys, groups, w, j)
    decreases |keys| - j
  {
    hide Send, Missed, LeftBy;
    if j == |keys| || !w.goOn(j) {
    } else {
      var group, key := GroupAt(groups, keys[j]), keys[j].key;
      var (m', outcome) := Send(cfg, m, friction, group, key, w, j);
      var rest := Retrying(cfg, m', friction, keys, groups, w, j + 1).1;
      LeftIsMissed(cfg, m, friction, group, key, w, j);
      LeftInIsMissed(cfg, m', friction, keys, groups, w, j + 1);
      LeftInCons(Part(group, outcome), rest, |rest|);
    }
  }

  /** No group will be replayed an answer of its size with a rejection none of its events takes. */
  predicate NoneMisses(cfg: Config, m: Service, friction: seq<string>, keys: seq<GroupKey>,
                       groups: map<GroupKey, seq<Record>>, w: World, j: nat)
    requires j <= |keys|
    decreases |keys| - j
  {
    j == |keys| || !w.goOn(j)
    || var group, key := GroupAt(groups, keys[j]), keys[j].key;
       && Missed(cfg, m, friction, group, key, w, j) == 0
       && NoneMisses(cfg, Send(cfg, m, friction, group, key, w, j).0, friction, keys, groups, w, j + 1)
  }

  lemma {:induction false} NoneMissesIff(cfg: Config, m: Service, friction: seq<string>, keys: seq<GroupKey>,
                                         groups: map<GroupKey, seq<Record>>, w: World, j: nat)
    requires j <= |keys|
    ensures NoneMisses(cfg, m, friction, keys, groups, w, j) <==> MissedFrom(cfg, m, friction, keys, groups, w, j) == 0
    decreases |keys| - j
  {
    hide Send, Missed;
    if j == |keys| || !w.goOn(j) {
    } else {
      NoneMissesIff(cfg, Send(cfg, m, friction, GroupAt(groups, keys[j]), keys[j].key, w, j).0, friction, keys, groups, w, j + 1);
    }
  }

  /** Wherever a retry stops: together its totals count the records it rewrote; `posted` is
      short by what the cache tells beforehand, so each total is right if and only if no group
      is replayed an answer with a rejection left over. */
  lemma RetryAddsUpIff(cfg: Config, m: Service, friction: seq<string>, keys: seq<GroupKey>,
                       groups: map<GroupKey, seq<Record>>, w: World)
    requires CacheCounts(m)
    ensures var parts := Retrying(cfg, m, friction, keys, groups, w, 0).1; var n := |parts|;
      && PostedIn(parts, n) + FailedIn(parts, n) == |UpdatedBy(parts, n)|
      && CountStatus(UpdatedBy(parts, n), |UpdatedBy(parts, n)|, Posted)
           == PostedIn(parts, n) + MissedFrom(cfg, m, friction, keys, groups, w, 0)
      && (Counts(UpdatedBy(parts, n), PostedIn(parts, n), FailedIn(parts, n)) <==>
            NoneMisses(cfg, m, friction, keys, groups, w, 0))
  {
    hide Retrying, CacheCounts, LeftBy, UpdatedBy, AddsUp, NoneMisses, MissedFrom;
    var parts := Retrying(cfg, m, friction, keys, groups, w, 0).1;
    RetryingAddsUp(cfg, m, friction, keys, groups, w, 0);
    PartsAddUp(parts, |parts|);
    LeftInIsMissed(cfg, m, friction, keys, groups, w, 0);
    NoneMissesIff(cfg, m, friction, keys, groups, w, 0);
  }

  lemma RejectedAlone(cfg: Config, d: Event, now: int)
    requires HandlerErrors(cfg, d, now) != []
    ensures var response := Answer(cfg, "", [d], now);
      response.accepted == 0 && |response.events| == 1 && Names(response.events[0], KeyOf(d)) && !response.events[0].accepted
  {
    hide HandlerErrors, StaleAmong, Repeats;
    assert AcceptedAmong(Verdicts(cfg, "", [d], now), 0) == 0;
  }

  lemma Replayed(cfg: Config, m: Service, e: Event, entry: Entry, w: World, i: nat)
    requires entry.key != "" && !FieldFault(e, w.clock(i), w.wall(i))
    requires m.cache == [entry] && w.clock(i) - entry.at < cfg.ttl
    ensures RetryExact.Cached(cfg, m, RequestOf([e], entry.key, [], w, i)) == Some(entry.response.events)
    ensures Deliver(cfg, m, Mock, [], [e], Some(entry.key), w, i).1
      == OutcomeOf(1, FromMock(Ok(entry.response)), w.clock(i), entry.key)
  {
    hide FieldFault, OutcomeOf, IngestFresh;
    RetrySplit.OneGate(e, entry.key, w, i);
    assert m.cache[0].key == entry.key;
  }

  /** The retry of an event alone, replayed the rejection of another. */
  lemma ReplayedRejection(cfg: Config, m: Service, s: Record, entry: Entry, v: Verdict, w: World, i: nat)
    requires entry.key != "" && s.verdict.None? && !FieldFault(s.event, w.clock(i), w.wall(i))
    requires m.cache == [entry] && w.clock(i) - entry.at < cfg.ttl
    requires entry.response.accepted == 0 && entry.response.events == [v] && !Names(v, KeyOf(s.event)) && !v.accepted
    ensures Send(cfg, m, [], [s], Some(entry.key), w, i).1.posted == 0
    ensures Missed(cfg, m, [], [s], Some(entry.key), w, i) == 1
  {
    hide FieldFault, LeftOver, Deliver, RetryExact.Cached;
    assert EventsIn([s]) == [s.event];
    Replayed(cfg, m, s.event, entry, w, i);
    StrangersRejection(s.event, v);
  }

  /** The second half of a split group, replayed the rejection of the first: its record reads
      posted and the retry reports none posted. */
  lemma SplitGroupMiscounts(cfg: Config, w: World, d: Event, e: Event)
    requires RetrySplit.Scene(cfg, w, d, e) && HandlerErrors(cfg, d, w.clock(1)) != []
    ensures var ops := RetrySplit.Ops(w, d, e); var key := Some(w.minted(0));
      var before, after := Play(cfg, w, ops[..2]), Play(cfg, w, ops); var group := Group(before.log, |before.log|, {1}, key);
      && |group| == 1 && |after.log| == 2 && after.log[1].status == Posted
      && Send(cfg, before.service, [], group, key, w, 2).1.posted == 0
      && Missed(cfg, before.service, [], group, key, w, 2) == 1
  {
    hide HandlerErrors, FieldFault, Play, Send, Missed, Answer;
    var lab, r, entry := RetrySplit.AfterFirst(cfg, w, d, e);
    var s := RetrySplit.FailedRecord(1, e, w.minted(0));
    RetrySplit.SplitGroupLies(cfg, w, d, e);
    RetrySplit.GroupOfSecond(r, s, Some(w.minted(0)));
    RejectedAlone(cfg, d, w.clock(1));
    assert entry.response.events == [entry.response.events[0]];
    ReplayedRejection(cfg, lab.service, s, entry, entry.response.events[0], w, 2);
  }
}
