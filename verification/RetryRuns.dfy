/**
 Posted means ingested: over any run of imports and retries against the mock in which a
 retry never splits the records waiting under one key.
 */
module RetryRuns {
  import opened Common
  import opened Records
  import opened MockSpec
  import MockCache
  import opened Pairing
  import opened Delivery
  import opened DeliveryTotals
  import opened Retry

  /** An answer to these claims: each has its own verdict, and what it accepts was ingested. */
  ghost predicate Covers(claims: seq<Claim>, verdicts: seq<Verdict>, ingested: set<nat>) {
    |verdicts| == |claims| && forall j :: 0 <= j < |claims| ==>
      Names(verdicts[j], KeyOf(claims[j].event)) && (verdicts[j].accepted ==> claims[j].id in ingested)
  }

  function ClaimsOf(events: seq<Event>, ids: seq<nat>): (r: seq<Claim>)
    requires |ids| == |events|
    ensures |r| == |events| && forall j :: 0 <= j < |r| ==> r[j] == Claim(ids[j], events[j])
  {
    seq(|events|, j requires 0 <= j < |events| => Claim(ids[j], events[j]))
  }

  ghost predicate Answered(outcome: Outcome, claims: seq<Claim>, key: string, ingested: set<nat>) {
    && outcome.status == Posted && outcome.reply.Some? && outcome.key == Some(key)
    && Covers(claims, outcome.reply.value.events, ingested)
  }

  predicate Raised(outcome: Outcome, key: string) {
    outcome.status == Failed && outcome.reply.None? && outcome.key == Some(key)
  }

  /** The cache after an answer under `key`: that answer, and otherwise what it held. */
  ghost predicate Renewed(cache: seq<Entry>, cache': seq<Entry>, key: string, claims: seq<Claim>, ingested: set<nat>) {
    && MockCache.Distinct(cache')
    && forall s :: 0 <= s < |cache'| ==>
         if cache'[s].key == key then Covers(claims, cache'[s].response.events, ingested) else cache'[s] in cache
  }

  // ------------------------------------------------------------------ the mock's answer

  lemma ForgottenIsGone(cache: seq<Entry>, key: string)
    requires MockCache.Distinct(cache)
    ensures MockCache.Distinct(Forget(cache, key)) && !Holds(Forget(cache, key), key)
    ensures forall s :: 0 <= s < |Forget(cache, key)| ==> Forget(cache, key)[s] in cache && Forget(cache, key)[s].key != key
  {
    if Holds(cache, key) {
      MockCache.CutDistinct(cache, Slot(cache, key));
    }
  }

  lemma NewestDistinct(cache: seq<Entry>, n: nat)
    requires MockCache.Distinct(cache)
    ensures MockCache.Distinct(LastN(cache, n))
  {
    var k := if |cache| <= n then 0 else |cache| - n;
    forall i: nat, j: nat | i < j < |LastN(cache, n)| ensures MockCache.Differ(LastN(cache, n), i, j) {
      assert MockCache.Differ(cache, k + i, k + j);
    }
  }

  lemma TouchRenews(cache: seq<Entry>, e: Entry, n: nat, claims: seq<Claim>, ingested: set<nat>)
    requires MockCache.Distinct(cache) && Covers(claims, e.response.events, ingested)
    ensures Renewed(cache, LastN(Forget(cache, e.key) + [e], n), e.key, claims, ingested)
  {
    hide Covers;
    ForgottenIsGone(cache, e.key);
    MockCache.AppendDistinct(Forget(cache, e.key), e);
    NewestDistinct(Forget(cache, e.key) + [e], n);
  }

  lemma FreshCovers(cfg: Config, m: Service, req: Request, ids: seq<nat>, ingested: set<nat>)
    requires |ids| == |req.events| && Gate(req).None? && !Replays(cfg, m, req)
    ensures Covers(ClaimsOf(req.events, ids), Answer(cfg, m.chain, req.events, req.now).events,
                   ingested + Accepted(cfg, m, req, ids))
  {
    hide Gate, ErrorsAt, AcceptedAmong, StaleAmong, ChainAfter;
    var verdicts := Verdicts(cfg, m.chain, req.events, req.now);
    forall j | 0 <= j < |ids| && verdicts[j].accepted ensures ids[j] in Accepted(cfg, m, req, ids) {
      assert Accepts(cfg, req.events, req.now, j);
    }
  }

  lemma CoversSize(claims: seq<Claim>, verdicts: seq<Verdict>, ingested: set<nat>)
    requires Covers(claims, verdicts, ingested)
    ensures |verdicts| == |claims|
  {}

  /** A keyed request of the mock: it fails as a whole and changes nothing, or it is answered,
      freshly or from the cache, and the cache holds the answer. */
  lemma Served(cfg: Config, m: Service, friction: seq<string>, events: seq<Event>, ids: seq<nat>,
               key: Option<string>, w: World, i: nat, ingested: set<nat>)
    requires |ids| == |events| && MockCache.Distinct(m.cache) && KeyUsed(key, w, i) != ""
    requires Holds(m.cache, KeyUsed(key, w, i)) ==>
      Covers(ClaimsOf(events, ids), m.cache[Slot(m.cache, KeyUsed(key, w, i))].response.events, ingested)
    ensures var (m', outcome) := Deliver(cfg, m, Mock, friction, events, key, w, i);
      var used := KeyUsed(key, w, i);
      var req := RequestOf(events, used, friction, w, i);
      var more := ingested + Accepted(cfg, m, req, ids);
      if Gate(req).Some? then m' == m && more == ingested && Raised(outcome, used)
      else
        Answered(outcome, ClaimsOf(events, ids), used, more) && Renewed(m.cache, m'.cache, used, ClaimsOf(events, ids), more)
  {
    hide Gate, Answer, ChainAfter, Covers, Renewed, ErrorsAt, Forget, Slot;
    var used := KeyUsed(key, w, i);
    var req := RequestOf(events, used, friction, w, i);
    var claims := ClaimsOf(events, ids);
    if Gate(req).None? {
      if Replays(cfg, m, req) {
        var e := m.cache[Slot(m.cache, used)];
        CoversSize(claims, e.response.events, ingested);
        TouchRenews(m.cache, e, |Forget(m.cache, used) + [e]|, claims, ingested);
        assert ingested + {} == ingested;
      } else {
        FreshCovers(cfg, m, req, ids, ingested);
        var more := ingested + Accepted(cfg, m, req, ids);
        var e := Entry(used, Answer(cfg, m.chain, events, req.now), req.now);
        CoversSize(claims, e.response.events, more);
        TouchRenews(m.cache, e, IDEMPOTENCY_CACHE_LIMIT, claims, more);
      }
    } else {
      assert ingested + {} == ingested;
    }
  }

  // ------------------------------------------------------------------ the invariant

  ghost predicate Honest(log: seq<Record>, ingested: set<nat>) {
    forall p :: 0 <= p < |log| && log[p].status == Posted ==> log[p].id in ingested
  }

  ghost predicate OldKeys(log: seq<Record>, w: World, i: nat) {
    forall p: nat, j: nat :: p < |log| && i <= j ==> log[p].key != Some(w.minted(j))
  }

  predicate Alike(log: seq<Record>, p: nat, q: nat)
    requires p < |log| && q < |log|
  {
    StoredKey(log[p]).Some? && StoredKey(log[p]) == StoredKey(log[q]) ==> log[p].verdict.None? == log[q].verdict.None?
  }

  /** Under one key either every record has an answer or none has. */
  ghost predicate Uniform(log: seq<Record>) {
    forall p: nat, q: nat :: p < |log| && q < |log| ==> Alike(log, p, q)
  }

  ghost predicate CoveredBy(log: seq<Record>, e: Entry, ingested: set<nat>) {
    var claims := Waiting(log, |log|, e.key);
    claims == [] || Covers(claims, e.response.events, ingested)
  }

  /** A cached answer under a key answers exactly the records waiting under it. */
  ghost predicate AllCovered(log: seq<Record>, cache: seq<Entry>, ingested: set<nat>) {
    forall s :: 0 <= s < |cache| ==> CoveredBy(log, cache[s], ingested)
  }

  ghost predicate PlainKeys(w: World) {
    forall j :: w.minted(j) != ""
  }

  ghost predicate Sound(w: World, lab: Lab, i: nat) {
    && Honest(lab.log, lab.ingested)
    && OldKeys(lab.log, w, i)
    && Uniform(lab.log)
    && AllCovered(lab.log, lab.service.cache, lab.ingested)
    && MockCache.Distinct(lab.service.cache)
    && NewKeys(lab.service, w, i)
  }

  // ------------------------------------------------------------------ waiting records

  lemma {:induction false} WaitingSame(log: seq<Record>, log': seq<Record>, n: nat, key: string)
    requires n <= |log| && n <= |log'|
    requires forall p :: 0 <= p < n ==>
      (Waits(log[p], key) <==> Waits(log'[p], key)) && log[p].id == log'[p].id && log[p].event == log'[p].event
    ensures Waiting(log', n, key) == Waiting(log, n, key)
  {
    if n == 0 {
    } else {
      WaitingSame(log, log', n - 1, key);
    }
  }

  lemma {:induction false} WaitingNone(log: seq<Record>, n: nat, key: string)
    requires n <= |log| && forall p :: 0 <= p < n ==> !Waits(log[p], key)
    ensures Waiting(log, n, key) == []
  {
    if n == 0 {
    } else {
      WaitingNone(log, n - 1, key);
    }
  }

  lemma {:induction false} WaitingAppended(log: seq<Record>, more: seq<Record>, n: nat, key: string)
    requires n <= |more| && forall p :: 0 <= p < n ==> !Waits(more[p], key)
    ensures Waiting(log + more, |log| + n, key) == Waiting(log, |log|, key)
  {
    if n > 0 {
      WaitingAppended(log, more, n - 1, key);
    } else {
      WaitingSame(log, log + more, |log|, key);
    }
  }

  lemma {:induction false} GroupFits(log: seq<Record>, n: nat, ids: set<nat>, key: Option<string>)
    requires n <= |log| && key.Some?
    requires forall p :: 0 <= p < n && InGroup(log[p], ids, key) ==> Waits(log[p], key.value)
    ensures |Group(log, n, ids, key)| <= |Waiting(log, n, key.value)|
    ensures |Group(log, n, ids, key)| == |Waiting(log, n, key.value)|
      ==> (forall p :: 0 <= p < n && Waits(log[p], key.value) ==> InGroup(log[p], ids, key))
  {
    if n == 0 {
    } else {
      GroupFits(log, n - 1, ids, key);
    }
  }

  lemma {:induction false} GroupAt(log: seq<Record>, n: nat, p: nat, ids: set<nat>, key: Option<string>)
    requires p < n <= |log| && InGroup(log[p], ids, key)
    ensures |Group(log, p, ids, key)| < |Group(log, n, ids, key)|
    ensures Group(log, n, ids, key)[|Group(log, p, ids, key)|] == log[p]
  {
    if p == n - 1 {
    } else {
      GroupAt(log, n - 1, p, ids, key);
    }
  }

  /** A whole group under a key used again: in it are exactly the records that wait. */
  lemma WholeIsExact(log: seq<Record>, op: Op)
    requires op.RetryOne? && Whole(log, op)
    requires Reuses(Group(log, |log|, op.wanted, op.key), op.key)
    ensures forall p :: 0 <= p < |log| ==> (InGroup(log[p], op.wanted, op.key) <==> Waits(log[p], op.key.value))
  {
    var group := Group(log, |log|, op.wanted, op.key);
    forall p | 0 <= p < |log| && InGroup(log[p], op.wanted, op.key) ensures Waits(log[p], op.key.value) {
      GroupAt(log, |log|, p, op.wanted, op.key);
    }
    assert |Claims(group)| == |group|;
    GroupFits(log, |log|, op.wanted, op.key);
  }

  // ------------------------------------------------------------------ the log after a retry

  /** What became of one record: if it was sent, it keeps its identity, and it has an answer
      exactly if the group has; a posted one was ingested. Otherwise it is as it was. */
  ghost predicate Rewritten(r: Record, r': Record, sent: bool, answered: bool, key: string, ingested: set<nat>) {
    if !sent then r' == r
    else
      && r'.id == r.id && r'.event == r.event && r'.key == Some(key)
      && (if answered then r'.verdict.Some? && (r'.status == Posted ==> r'.id in ingested)
          else r'.verdict.None? && r'.status == Failed)
  }

  ghost predicate AllRewritten(log: seq<Record>, log': seq<Record>, ids: set<nat>, group: Option<string>, answered: bool,
                               key: string, ingested: set<nat>)
  {
    |log'| == |log| && forall p :: 0 <= p < |log| ==>
      Rewritten(log[p], log'[p], InGroup(log[p], ids, group), answered, key, ingested)
  }

  lemma GroupClaims(group: seq<Record>)
    ensures ClaimsOf(EventsIn(group), IdsIn(group)) == Claims(group)
  {}

  lemma CoversOwn(group: seq<Record>, verdicts: seq<Verdict>, ingested: set<nat>)
    requires Covers(Claims(group), verdicts, ingested)
    ensures Own(EventsIn(group), verdicts)
  {}

  lemma PatchedAt(log: seq<Record>, ids: set<nat>, key: Option<string>, outcome: Outcome, p: nat)
    requires p < |log| && InGroup(log[p], ids, key)
    ensures var group := Group(log, |log|, ids, key);
      var rank := |Group(log, p, ids, key)|;
      && rank < |group| && group[rank] == log[p]
      && Patched(log, ids, key, outcome)[p] == Retried(log[p], outcome, Paired(EventsIn(group), ReplyEvents(outcome), rank))
  {
    hide Retried, Paired;
    GroupAt(log, |log|, p, ids, key);
  }

  lemma AnsweredRewrites(log: seq<Record>, ids: set<nat>, group: Option<string>, outcome: Outcome, key: string, ingested: set<nat>)
    requires Answered(outcome, Claims(Group(log, |log|, ids, group)), key, ingested)
    ensures AllRewritten(log, Patched(log, ids, group, outcome), ids, group, true, key, ingested)
  {
    hide Paired, Own, Group, InGroup;
    var sent := Group(log, |log|, ids, group);
    var verdicts := outcome.reply.value.events;
    CoversOwn(sent, verdicts, ingested);
    RequestOrderIsRight(EventsIn(sent), verdicts);
    forall p: nat | p < |log|
      ensures Rewritten(log[p], Patched(log, ids, group, outcome)[p], InGroup(log[p], ids, group), true, key, ingested)
    {
      if InGroup(log[p], ids, group) {
        PatchedAt(log, ids, group, outcome, p);
        var rank := |Group(log, p, ids, group)|;
        assert Paired(EventsIn(sent), verdicts, rank) == Some(verdicts[rank]);
        assert Claims(sent)[rank].id == log[p].id;
      }
    }
  }

  lemma RaisedRewrites(log: seq<Record>, ids: set<nat>, group: Option<string>, outcome: Outcome, key: string, ingested: set<nat>)
    requires Raised(outcome, key)
    ensures AllRewritten(log, Patched(log, ids, group, outcome), ids, group, false, key, ingested)
  {
    hide Group, InGroup;
    forall p: nat | p < |log|
      ensures Rewritten(log[p], Patched(log, ids, group, outcome)[p], InGroup(log[p], ids, group), false, key, ingested)
    {
      if InGroup(log[p], ids, group) {
        PatchedAt(log, ids, group, outcome, p);
        NoAnswers(KeyOf(EventsIn(Group(log, |log|, ids, group))[|Group(log, p, ids, group)|]));
      }
    }
  }

  // ------------------------------------------------------------------ one retry

  /** How the group stands to the key it is sent under: all that waits under it, or a key no
      record has and a group in which no record waits. */
  ghost predicate Chosen(log: seq<Record>, ids: set<nat>, group: Option<string>, key: string) {
    if group == Some(key) then
      forall p :: 0 <= p < |log| ==> (InGroup(log[p], ids, group) <==> Waits(log[p], key))
    else
      && (forall p :: 0 <= p < |log| ==> log[p].key != Some(key))
      && (forall p, other :: 0 <= p < |log| && InGroup(log[p], ids, group) ==> !Waits(log[p], other))
  }

  lemma OthersStillWait(log: seq<Record>, log': seq<Record>, ids: set<nat>, group: Option<string>, answered: bool,
                        key: string, ingested: set<nat>, other: string)
    requires AllRewritten(log, log', ids, group, answered, key, ingested) && Chosen(log, ids, group, key) && other != key
    ensures Waiting(log', |log'|, other) == Waiting(log, |log|, other)
  {
    forall p | 0 <= p < |log|
      ensures (Waits(log[p], other) <==> Waits(log'[p], other)) && log[p].id == log'[p].id && log[p].event == log'[p].event
    {
      assert Rewritten(log[p], log'[p], InGroup(log[p], ids, group), answered, key, ingested);
    }
    WaitingSame(log, log', |log|, other);
  }

  lemma AnsweredWaitNoMore(log: seq<Record>, log': seq<Record>, ids: set<nat>, group: Option<string>, key: string, ingested: set<nat>)
    requires AllRewritten(log, log', ids, group, true, key, ingested) && Chosen(log, ids, group, key)
    ensures Waiting(log', |log'|, key) == []
  {
    forall p | 0 <= p < |log'| ensures !Waits(log'[p], key) {
      assert Rewritten(log[p], log'[p], InGroup(log[p], ids, group), true, key, ingested);
    }
    WaitingNone(log', |log'|, key);
  }

  lemma RaisedWaitOn(log: seq<Record>, log': seq<Record>, ids: set<nat>, key: string, ingested: set<nat>)
    requires AllRewritten(log, log', ids, Some(key), false, key, ingested) && Chosen(log, ids, Some(key), key)
    ensures Waiting(log', |log'|, key) == Waiting(log, |log|, key)
  {
    forall p | 0 <= p < |log|
      ensures (Waits(log[p], key) <==> Waits(log'[p], key)) && log[p].id == log'[p].id && log[p].event == log'[p].event
    {
      assert Rewritten(log[p], log'[p], InGroup(log[p], ids, Some(key)), false, key, ingested);
    }
    WaitingSame(log, log', |log|, key);
  }

  lemma CoveredMore(log: seq<Record>, e: Entry, ingested: set<nat>, more: set<nat>)
    requires CoveredBy(log, e, ingested) && ingested <= more
    ensures CoveredBy(log, e, more)
  {
    hide Waiting;
  }

  lemma NobodyWaits(log: seq<Record>, ids: set<nat>, group: Option<string>, key: string)
    requires Chosen(log, ids, group, key) && group != Some(key)
    ensures Waiting(log, |log|, key) == []
  {
    WaitingNone(log, |log|, key);
  }

  /** The cache stays covered whether the commit happened or was dropped. */
  lemma RetryCovers(log: seq<Record>, log': seq<Record>, cache: seq<Entry>, cache': seq<Entry>, ids: set<nat>,
                    group: Option<string>, key: string, ingested: set<nat>, more: set<nat>)
    requires AllCovered(log, cache, ingested) && ingested <= more && Chosen(log, ids, group, key)
    requires Renewed(cache, cache', key, Claims(Group(log, |log|, ids, group)), more)
    requires AllRewritten(log, log', ids, group, true, key, more)
    requires group == Some(key) ==> Claims(Group(log, |log|, ids, group)) == Waiting(log, |log|, key)
    ensures AllCovered(log', cache', more) && AllCovered(log, cache', more)
  {
    hide Waiting, Group, InGroup, Covers, AllRewritten;
    forall s | 0 <= s < |cache'| ensures CoveredBy(log', cache'[s], more) && CoveredBy(log, cache'[s], more) {
      if cache'[s].key == key {
        AnsweredWaitNoMore(log, log', ids, group, key, more);
        if group != Some(key) {
          NobodyWaits(log, ids, group, key);
        }
      } else {
        var t :| 0 <= t < |cache| && cache[t] == cache'[s];
        OthersStillWait(log, log', ids, group, true, key, more, cache'[s].key);
        CoveredMore(log, cache'[s], ingested, more);
        assert CoveredBy(log', cache'[s], more);
      }
    }
  }

  lemma RaiseCovers(log: seq<Record>, log': seq<Record>, cache: seq<Entry>, ids: set<nat>, group: Option<string>,
                    key: string, ingested: set<nat>)
    requires AllCovered(log, cache, ingested) && Chosen(log, ids, group, key)
    requires AllRewritten(log, log', ids, group, false, key, ingested)
    requires group != Some(key) ==> !Holds(cache, key)
    ensures AllCovered(log', cache, ingested)
  {
    hide Waiting, InGroup, Covers, AllRewritten;
    forall s | 0 <= s < |cache| ensures CoveredBy(log', cache[s], ingested) {
      assert CoveredBy(log, cache[s], ingested);
      if cache[s].key == key {
        assert Holds(cache, key);
        RaisedWaitOn(log, log', ids, key, ingested);
      } else {
        OthersStillWait(log, log', ids, group, false, key, ingested, cache[s].key);
      }
    }
  }

  lemma RetryKeepsHonest(log: seq<Record>, log': seq<Record>, ids: set<nat>, group: Option<string>, answered: bool,
                         key: string, ingested: set<nat>, more: set<nat>)
    requires Honest(log, ingested) && ingested <= more && AllRewritten(log, log', ids, group, answered, key, more)
    ensures Honest(log', more)
  {
    forall p | 0 <= p < |log'| && log'[p].status == Posted ensures log'[p].id in more {
      assert Rewritten(log[p], log'[p], InGroup(log[p], ids, group), answered, key, more);
    }
  }

  lemma RetryKeepsUniform(log: seq<Record>, log': seq<Record>, ids: set<nat>, group: Option<string>, answered: bool,
                          key: string, ingested: set<nat>)
    requires Uniform(log) && Chosen(log, ids, group, key) && AllRewritten(log, log', ids, group, answered, key, ingested)
    ensures Uniform(log')
  {
    forall p: nat, q: nat | p < |log'| && q < |log'| ensures Alike(log', p, q) {
      assert Alike(log, p, q);
      assert Rewritten(log[p], log'[p], InGroup(log[p], ids, group), answered, key, ingested);
      assert Rewritten(log[q], log'[q], InGroup(log[q], ids, group), answered, key, ingested);
    }
  }

  lemma RetryKeepsOldKeys(log: seq<Record>, log': seq<Record>, ids: set<nat>, group: Option<string>, answered: bool,
                          key: string, ingested: set<nat>, w: World, i: nat)
    requires OldKeys(log, w, i) && AllRewritten(log, log', ids, group, answered, key, ingested)
    requires forall j: nat :: i + 1 <= j ==> w.minted(j) != key
    ensures OldKeys(log', w, i + 1) && OldKeys(log, w, i + 1)
  {
    forall p: nat, j: nat | p < |log'| && i + 1 <= j ensures log'[p].key != Some(w.minted(j)) {
      assert Rewritten(log[p], log'[p], InGroup(log[p], ids, group), answered, key, ingested);
    }
  }

  lemma RenewedHolds(cache: seq<Entry>, cache': seq<Entry>, key: string, claims: seq<Claim>, ingested: set<nat>, other: string)
    requires Renewed(cache, cache', key, claims, ingested) && other != key && Holds(cache', other)
    ensures Holds(cache, other)
  {
    hide Covers;
    var s := Slot(cache', other);
    assert cache'[s] in cache;
  }

  lemma RenewedKeepsNew(m: Service, m': Service, w: World, i: nat, key: string, claims: seq<Claim>, ingested: set<nat>)
    requires NewKeys(m, w, i) && Renewed(m.cache, m'.cache, key, claims, ingested)
    requires forall j: nat :: i + 1 <= j ==> w.minted(j) != key
    ensures NewKeys(m', w, i + 1)
  {
    hide Covers, Renewed, Holds;
    forall j: nat | i + 1 <= j ensures !Holds(m'.cache, w.minted(j)) {
      if Holds(m'.cache, w.minted(j)) {
        RenewedHolds(m.cache, m'.cache, key, claims, ingested, w.minted(j));
      }
    }
  }

  /** Where in the log a record of the group is. */
  lemma {:induction false} Whence(log: seq<Record>, n: nat, ids: set<nat>, key: Option<string>, j: nat) returns (q: nat)
    requires n <= |log| && j < |Group(log, n, ids, key)|
    ensures q < n && InGroup(log[q], ids, key) && Group(log, n, ids, key)[j] == log[q]
  {
    if j < |Group(log, n - 1, ids, key)| {
      q := Whence(log, n - 1, ids, key, j);
    } else {
      q := n - 1;
    }
  }

  /** A group that is not sent under its own key has no record that waits. */
  lemma FreshGroup(w: World, log: seq<Record>, op: Op, i: nat)
    requires op.RetryOne? && Uniform(log) && OldKeys(log, w, i)
    requires !Reuses(Group(log, |log|, op.wanted, op.key), op.key)
    ensures Chosen(log, op.wanted, op.key, w.minted(i)) || op.key == Some(w.minted(i))
  {
    hide Group;
    var group := Group(log, |log|, op.wanted, op.key);
    forall p: nat, other | p < |log| && InGroup(log[p], op.wanted, op.key) ensures !Waits(log[p], other) {
      if op.key.Some? {
        var j: nat :| j < |group| && group[j].verdict.Some?;
        var q := Whence(log, |log|, op.wanted, op.key, j);
        assert Alike(log, p, q);
      }
    }
  }

  /** What is chosen for a group that is not empty. */
  lemma Choice(w: World, lab: Lab, op: Op, i: nat) returns (key: string)
    requires op.RetryOne? && Sound(w, lab, i) && Whole(lab.log, op) && PlainKeys(w)
    requires Group(lab.log, |lab.log|, op.wanted, op.key) != []
    ensures var group := Group(lab.log, |lab.log|, op.wanted, op.key);
      && key == KeyUsed(if Reuses(group, op.key) then op.key else None, w, i) && key != ""
      && Chosen(lab.log, op.wanted, op.key, key)
      && (op.key == Some(key) ==> Claims(group) == Waiting(lab.log, |lab.log|, key))
      && (op.key != Some(key) ==> !Holds(lab.service.cache, key))
      && (forall j: nat :: i + 1 <= j ==> w.minted(j) != key)
      && (Holds(lab.service.cache, key) ==>
            Covers(Claims(group), lab.service.cache[Slot(lab.service.cache, key)].response.events, lab.ingested))
  {
    hide Covers, Waiting, Uniform;
    var group := Group(lab.log, |lab.log|, op.wanted, op.key);
    var q := Whence(lab.log, |lab.log|, op.wanted, op.key, 0);
    if Reuses(group, op.key) {
      key := op.key.value;
      WholeIsExact(lab.log, op);
      if Holds(lab.service.cache, key) {
        assert CoveredBy(lab.log, lab.service.cache[Slot(lab.service.cache, key)], lab.ingested);
      }
    } else {
      key := w.minted(i);
      FreshGroup(w, lab.log, op, i);
    }
  }

  lemma RenewedDistinct(cache: seq<Entry>, cache': seq<Entry>, key: string, claims: seq<Claim>, ingested: set<nat>)
    requires Renewed(cache, cache', key, claims, ingested)
    ensures MockCache.Distinct(cache')
  {}

  lemma LaterKeys(m: Service, w: World, i: nat)
    requires NewKeys(m, w, i)
    ensures NewKeys(m, w, i + 1)
  {}

  lemma HonestMore(log: seq<Record>, ingested: set<nat>, more: set<nat>)
    requires Honest(log, ingested) && ingested <= more
    ensures Honest(log, more)
  {}

  /** Both ends of a retry that was sent: raised or answered, committed or dropped. */
  lemma RetryKeepsSound(cfg: Config, w: World, lab: Lab, op: Op, i: nat)
    requires op.RetryOne? && Sound(w, lab, i) && Whole(lab.log, op) && PlainKeys(w)
    requires Group(lab.log, |lab.log|, op.wanted, op.key) != []
    ensures Sound(w, Step(cfg, w, lab, op, i), i + 1)
  {
    hide Deliver, Group, InGroup, Waiting, Covers, Gate, Accepted, Patched, Whole, PlainKeys;
    hide Honest, OldKeys, Uniform, AllCovered, NewKeys, Renewed, AllRewritten, Chosen, Answered, Raised, Reuses, KeyUsed;
    var log, m := lab.log, lab.service;
    var group := Group(log, |log|, op.wanted, op.key);
    var key := Choice(w, lab, op, i);
    var under := if Reuses(group, op.key) then op.key else None;
    var (m', outcome) := Deliver(cfg, m, Mock, op.friction, EventsIn(group), under, w, i);
    var req := RequestOf(EventsIn(group), key, op.friction, w, i);
    var more := lab.ingested + Accepted(cfg, m, req, IdsIn(group));
    var log' := Patched(log, op.wanted, op.key, outcome);
    GroupClaims(group);
    Served(cfg, m, op.friction, EventsIn(group), IdsIn(group), under, w, i, lab.ingested);
    var answered := Gate(req).None?;
    if answered {
      AnsweredRewrites(log, op.wanted, op.key, outcome, key, more);
      RetryCovers(log, log', m.cache, m'.cache, op.wanted, op.key, key, lab.ingested, more);
      RenewedKeepsNew(m, m', w, i, key, Claims(group), more);
      RenewedDistinct(m.cache, m'.cache, key, Claims(group), more);
    } else {
      RaisedRewrites(log, op.wanted, op.key, outcome, key, more);
      RaiseCovers(log, log', m.cache, op.wanted, op.key, key, lab.ingested);
      LaterKeys(m, w, i);
    }
    RetryKeepsHonest(log, log', op.wanted, op.key, answered, key, lab.ingested, more);
    HonestMore(log, lab.ingested, more);
    RetryKeepsUniform(log, log', op.wanted, op.key, answered, key, more);
    RetryKeepsOldKeys(log, log', op.wanted, op.key, answered, key, more, w, i);
  }

  lemma {:induction false} NobodyInGroup(log: seq<Record>, n: nat, ids: set<nat>, key: Option<string>)
    requires n <= |log| && Group(log, n, ids, key) == []
    ensures forall p :: 0 <= p < n ==> !InGroup(log[p], ids, key)
  {
    if n == 0 {
    } else {
      NobodyInGroup(log, n - 1, ids, key);
    }
  }

  lemma NoEvents(cfg: Config, m: Service, friction: seq<string>, events: seq<Event>, key: Option<string>, w: World, i: nat)
    requires events == []
    ensures Gate(RequestOf(events, KeyUsed(key, w, i), friction, w, i)).Some?
    ensures Deliver(cfg, m, Mock, friction, events, key, w, i).0 == m
  {
    hide Replays, IngestFresh;
  }

  /** A retry of nothing is refused by the mock and changes nothing. */
  lemma EmptyRetry(cfg: Config, w: World, lab: Lab, op: Op, i: nat)
    requires op.RetryOne? && Sound(w, lab, i) && Group(lab.log, |lab.log|, op.wanted, op.key) == []
    ensures Step(cfg, w, lab, op, i) == lab && Sound(w, lab, i + 1)
  {
    hide Ingest, Honest, Uniform, AllCovered, Waiting, Retried;
    NobodyInGroup(lab.log, |lab.log|, op.wanted, op.key);
    var group := Group(lab.log, |lab.log|, op.wanted, op.key);
    var key := if Reuses(group, op.key) then op.key else None;
    NoEvents(cfg, lab.service, op.friction, EventsIn(group), key, w, i);
    assert lab.ingested + {} == lab.ingested;
    assert forall outcome :: Patched(lab.log, op.wanted, op.key, outcome) == lab.log;
  }

  // ------------------------------------------------------------------ one import

  ghost predicate Imported(records: seq<Record>, answered: bool, key: string, ingested: set<nat>) {
    forall p :: 0 <= p < |records| ==>
      && records[p].key == Some(key)
      && (if answered then records[p].verdict.Some? && (records[p].status == Posted ==> records[p].id in ingested)
          else records[p].verdict.None? && records[p].status == Failed)
  }

  lemma ImportIsAnswered(events: seq<Event>, ids: seq<nat>, parents: seq<seq<string>>, outcome: Outcome, key: string,
                         ingested: set<nat>)
    requires |ids| == |parents| == |events| && Answered(outcome, ClaimsOf(events, ids), key, ingested)
    ensures Imported(RecordsFor(ids, events, parents, Mock, outcome), true, key, ingested)
  {
    hide Paired;
    var own := outcome.reply.value.events;
    assert Own(events, own);
    RequestOrderIsRight(events, own);
    hide Own;
    forall j | 0 <= j < |events| ensures own[j].accepted ==> ids[j] in ingested {
      assert ClaimsOf(events, ids)[j].id == ids[j];
    }
  }

  lemma ImportIsRaised(events: seq<Event>, ids: seq<nat>, parents: seq<seq<string>>, outcome: Outcome, key: string,
                       ingested: set<nat>)
    requires |ids| == |parents| == |events| && Raised(outcome, key)
    ensures Imported(RecordsFor(ids, events, parents, Mock, outcome), false, key, ingested)
  {
    forall j | 0 <= j < |events| ensures Paired(events, [], j).None? {
      NoAnswers(KeyOf(events[j]));
    }
  }

  lemma ImportCovers(log: seq<Record>, records: seq<Record>, cache: seq<Entry>, answered: bool, key: string,
                     ingested: set<nat>, more: set<nat>, e: Entry)
    requires AllCovered(log, cache, ingested) && ingested <= more && Imported(records, answered, key, more)
    requires e in cache && e.key != key
    ensures CoveredBy(log + records, e, more) && CoveredBy(log, e, more)
  {
    hide Waiting, Covers;
    var s :| 0 <= s < |cache| && cache[s] == e;
    assert CoveredBy(log, cache[s], ingested);
    CoveredMore(log, e, ingested, more);
    WaitingAppended(log, records, |records|, e.key);
  }

  lemma NewAnswerCovers(log: seq<Record>, records: seq<Record>, key: string, ingested: set<nat>, e: Entry)
    requires Imported(records, true, key, ingested) && e.key == key && forall p :: 0 <= p < |log| ==> log[p].key != Some(key)
    ensures CoveredBy(log + records, e, ingested) && CoveredBy(log, e, ingested)
  {
    WaitingNone(log, |log|, key);
    WaitingNone(log + records, |log + records|, key);
  }

  lemma ImportKeepsCovered(log: seq<Record>, records: seq<Record>, cache: seq<Entry>, cache': seq<Entry>, answered: bool,
                           key: string, ingested: set<nat>, more: set<nat>, claims: seq<Claim>)
    requires AllCovered(log, cache, ingested) && ingested <= more && Imported(records, answered, key, more)
    requires !Holds(cache, key) && forall p :: 0 <= p < |log| ==> log[p].key != Some(key)
    requires if answered then Renewed(cache, cache', key, claims, more) else cache' == cache
    ensures AllCovered(log + records, cache', more) && AllCovered(log, cache', more)
  {
    hide Waiting, Covers, Imported, CoveredBy;
    forall s | 0 <= s < |cache'| ensures CoveredBy(log + records, cache'[s], more) && CoveredBy(log, cache'[s], more) {
      if cache'[s].key == key {
        NewAnswerCovers(log, records, key, more, cache'[s]);
      } else {
        ImportCovers(log, records, cache, answered, key, ingested, more, cache'[s]);
      }
    }
  }

  lemma ImportKeepsRest(log: seq<Record>, records: seq<Record>, answered: bool, w: World, i: nat, ingested: set<nat>, more: set<nat>)
    requires Honest(log, ingested) && ingested <= more && Uniform(log) && OldKeys(log, w, i)
    requires Imported(records, answered, w.minted(i), more) && forall j: nat :: i + 1 <= j ==> w.minted(j) != w.minted(i)
    ensures Honest(log + records, more) && Honest(log, more) && Uniform(log + records)
    ensures OldKeys(log + records, w, i + 1) && OldKeys(log, w, i + 1)
  {
    forall p: nat, q: nat | p < |log + records| && q < |log + records| ensures Alike(log + records, p, q) {
      if p < |log| && q < |log| { assert Alike(log, p, q); }
    }
  }

  lemma ImportKeepsSound(cfg: Config, w: World, lab: Lab, op: Op, i: nat)
    requires op.Import? && Usable(op) && Sound(w, lab, i) && PlainKeys(w)
    ensures Sound(w, Step(cfg, w, lab, op, i), i + 1)
  {
    hide Deliver, Waiting, Covers, Gate, Accepted, RecordOf, Paired;
    hide Honest, Uniform, AllCovered, Renewed, Answered, Raised, Imported;
    var log, m := lab.log, lab.service;
    var key := w.minted(i);
    var (m', outcome) := Deliver(cfg, m, Mock, op.friction, op.events, None, w, i);
    var req := RequestOf(op.events, key, op.friction, w, i);
    var more := lab.ingested + Accepted(cfg, m, req, op.ids);
    var records := RecordsFor(op.ids, op.events, op.parents, Mock, outcome);
    Served(cfg, m, op.friction, op.events, op.ids, None, w, i, lab.ingested);
    var answered := Gate(req).None?;
    if answered {
      ImportIsAnswered(op.events, op.ids, op.parents, outcome, key, more);
      RenewedKeepsNew(m, m', w, i, key, ClaimsOf(op.events, op.ids), more);
      RenewedDistinct(m.cache, m'.cache, key, ClaimsOf(op.events, op.ids), more);
    } else {
      ImportIsRaised(op.events, op.ids, op.parents, outcome, key, more);
      LaterKeys(m, w, i);
    }
    ImportKeepsCovered(log, records, m.cache, m'.cache, answered, key, lab.ingested, more, ClaimsOf(op.events, op.ids));
    ImportKeepsRest(log, records, answered, w, i, lab.ingested, more);
  }

  // ------------------------------------------------------------------ whole runs

  lemma {:induction false} RunKeepsSound(cfg: Config, w: World, ops: seq<Op>)
    requires (forall k :: 0 <= k < |ops| ==> Usable(ops[k])) && AlwaysWhole(cfg, w, ops)
    requires PlainKeys(w) && NewKeys(Service("", []), w, 0)
    ensures Sound(w, Play(cfg, w, ops), |ops|)
    decreases |ops|
  {
    if ops == [] {
    } else {
      hide Sound, Step, Whole;
      var n := |ops| - 1;
      var lab := Play(cfg, w, ops[..n]);
      RunKeepsSound(cfg, w, ops[..n]);
      if ops[n].Import? {
        ImportKeepsSound(cfg, w, lab, ops[n], n);
      } else if Group(lab.log, |lab.log|, ops[n].wanted, ops[n].key) == [] {
        EmptyRetry(cfg, w, lab, ops[n], n);
      } else {
        RetryKeepsSound(cfg, w, lab, ops[n], n);
      }
    }
  }

  /** Whatever fails and whichever commits are dropped: as long as a retry under a used key
      takes every record waiting under it, a record that reads posted was ingested. */
  lemma PostedMeansIngested(cfg: Config, w: World, ops: seq<Op>, p: nat)
    requires (forall k :: 0 <= k < |ops| ==> Usable(ops[k])) && AlwaysWhole(cfg, w, ops)
    requires PlainKeys(w) && NewKeys(Service("", []), w, 0)
    requires p < |Play(cfg, w, ops).log| && Play(cfg, w, ops).log[p].status == Posted
    ensures Play(cfg, w, ops).log[p].id in Play(cfg, w, ops).ingested
  {
    RunKeepsSound(cfg, w, ops);
  }
}
