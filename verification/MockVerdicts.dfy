/**
 Which requests the mock lets through, and exactly which of their events it accepts and why
 it rejects the others.
 */
module MockVerdicts {
  import opened Common
  import opened Records
  import opened MockSpec
  import opened MockChain

  // ------------------------------------------------------------------ the request

  /** Every field is within its bounds, and the time at most a day ahead of both clocks. */
  predicate WithinBounds(e: Event, now: int, wall: int) {
    && 3 <= |e.lot| && 1 <= |e.description| <= 500 && 0 < e.quantity
    && (e.timestamp <= now + 86400000000 || e.timestamp <= wall + 86400000000)
  }

  /** A request fails as a whole, and changes nothing, exactly if it is not signed, meets
      friction, has too few or too many events, or one event with a field out of bounds;
      the first of these that applies gives the status. */
  lemma RefusedIff(cfg: Config, m: Service, req: Request)
    ensures var (m', result) := Ingest(cfg, m, req);
      var sized := 1 <= |req.events| <= 500;
      var bounded := forall i :: 0 <= i < |req.events| ==> WithinBounds(req.events[i], req.now, req.wall);
      && (result.Ok? <==> req.signed && req.friction == [] && sized && bounded)
      && (result.Err? ==> m' == m)
      && (!req.signed ==> result == Err(HttpError(401)))
      && (req.signed && req.friction != [] ==> result.Err? && match req.friction[0]
            case "invalid_key" => result.error.status == 401
            case "subscription_inactive" => result.error.status == 402
            case "rate_limit" => result.error.status == 429
            case _ => result.error.status == 400)
      && (req.signed && req.friction == [] && !(sized && bounded) ==> result == Err(HttpError(422)))
  {
    hide Answer, ChainAfter, Replays, Slot, Forget;
    forall i | 0 <= i < |req.events|
      ensures WithinBounds(req.events[i], req.now, req.wall) <==> !FieldFault(req.events[i], req.now, req.wall)
    {}
  }

  // ------------------------------------------------------------------ its events

  /** Older than the window reaches back. */
  predicate Stale(cfg: Config, e: Event, now: int) {
    e.timestamp < now - cfg.maxAgeDays * 86400000000
  }

  predicate EarlierTwin(cfg: Config, events: seq<Event>, i: nat)
    requires i < |events|
  {
    exists j :: 0 <= j < i && BatchKey(cfg, events[j]) == BatchKey(cfg, events[i])
  }

  /** A verdict names its event, accepts it exactly if nothing is wrong with it, and holds
      each fault exactly if that is wrong. */
  ghost predicate Judges(cfg: Config, events: seq<Event>, now: int, i: nat, v: Verdict)
    requires i < |events|
  {
    var e := events[i];
    && v.lot == Some(e.lot) && v.cte == Some(e.cte)
    && (v.accepted <==> (Stale(cfg, e, now) ==> !cfg.enforceAge) && e.located && e.complete && !EarlierTwin(cfg, events, i))
    && (TooOld in v.errors <==> Stale(cfg, e, now) && cfg.enforceAge)
    && (NoLocation in v.errors <==> !e.located)
    && (MissingKdes in v.errors <==> !e.complete)
    && (DuplicateInBatch in v.errors <==> EarlierTwin(cfg, events, i))
    && (forall fault :: fault in v.errors ==> fault in [TooOld, NoLocation, MissingKdes, DuplicateInBatch])
    && (!v.accepted ==> v.chain == "")
  }

  /** The faults of one event, each there exactly if its own condition fails. */
  lemma FaultsAt(cfg: Config, events: seq<Event>, now: int, i: nat)
    requires i < |events|
    ensures var e := events[i]; var errors := ErrorsAt(cfg, events, now, i);
      && (TooOld in errors <==> Stale(cfg, e, now) && cfg.enforceAge)
      && (NoLocation in errors <==> !e.located)
      && (MissingKdes in errors <==> !e.complete)
      && (DuplicateInBatch in errors <==> EarlierTwin(cfg, events, i))
      && (forall fault :: fault in errors ==> fault in [TooOld, NoLocation, MissingKdes, DuplicateInBatch])
  {
    var e := events[i];
    var errors := ErrorsAt(cfg, events, now, i);
    assert Repeats(cfg, events, i) <==> EarlierTwin(cfg, events, i);
    assert OutOfWindow(cfg, e, now) <==> Stale(cfg, e, now);
    hide BatchKey, Repeats, EarlierTwin, OutOfWindow, Stale;
  }

  lemma VerdictJudges(cfg: Config, chain: Hash, events: seq<Event>, now: int, i: nat)
    requires i < |events|
    ensures Judges(cfg, events, now, i, VerdictAt(cfg, chain, events, now, i))
  {
    hide ErrorsAt, EarlierTwin, ChainAfter, Stale;
    FaultsAt(cfg, events, now, i);
    var errors := ErrorsAt(cfg, events, now, i);
    if errors != [] {
      assert errors[0] in errors;
    }
  }

  ghost function StaleOnes(cfg: Config, events: seq<Event>, now: int): set<int> {
    set i | 0 <= i < |events| && Stale(cfg, events[i], now)
  }

  lemma NoneStale(cfg: Config, events: seq<Event>, now: int)
    ensures StaleOnes(cfg, events[..0], now) == {}
  {}

  lemma OneMoreStale(cfg: Config, events: seq<Event>, now: int, n: nat)
    requires 0 < n <= |events|
    ensures |StaleOnes(cfg, events[..n], now)|
      == |StaleOnes(cfg, events[..n - 1], now)| + if Stale(cfg, events[n - 1], now) then 1 else 0
  {
    hide Stale;
    var before, after := StaleOnes(cfg, events[..n - 1], now), StaleOnes(cfg, events[..n], now);
    assert after == before + if Stale(cfg, events[n - 1], now) then {n - 1} else {};
  }

  lemma {:induction false} StaleAreCounted(cfg: Config, events: seq<Event>, now: int, n: nat)
    requires n <= |events|
    ensures StaleAmong(cfg, events, now, n) == if cfg.enforceAge then 0 else |StaleOnes(cfg, events[..n], now)|
  {
    hide StaleOnes;
    if n == 0 {
      NoneStale(cfg, events, now);
    } else {
      StaleAreCounted(cfg, events, now, n - 1);
      OneMoreStale(cfg, events, now, n);
    }
  }

  ghost function AcceptedOnes(verdicts: seq<Verdict>): set<int> {
    set i | 0 <= i < |verdicts| && verdicts[i].accepted
  }

  lemma NoneAccepted(verdicts: seq<Verdict>)
    ensures AcceptedOnes(verdicts[..0]) == {}
  {}

  lemma OneMoreAccepted(verdicts: seq<Verdict>, n: nat)
    requires 0 < n <= |verdicts|
    ensures |AcceptedOnes(verdicts[..n])| == |AcceptedOnes(verdicts[..n - 1])| + if verdicts[n - 1].accepted then 1 else 0
  {
    var before, after := AcceptedOnes(verdicts[..n - 1]), AcceptedOnes(verdicts[..n]);
    assert after == before + if verdicts[n - 1].accepted then {n - 1} else {};
  }

  lemma {:induction false} AcceptedAreCounted(verdicts: seq<Verdict>, n: nat)
    requires n <= |verdicts|
    ensures AcceptedAmong(verdicts, n) == |AcceptedOnes(verdicts[..n])|
  {
    hide AcceptedOnes;
    if n == 0 {
      NoneAccepted(verdicts);
    } else {
      AcceptedAreCounted(verdicts, n - 1);
      OneMoreAccepted(verdicts, n);
    }
  }

  lemma LookedAtAnswers(cfg: Config, m: Service, req: Request)
    requires Looked(cfg, m, req)
    ensures Ingest(cfg, m, req).1 == Ok(Answer(cfg, m.chain, req.events, req.now))
  {
    hide Answer, ChainAfter;
  }

  lemma VerdictsJudge(cfg: Config, chain: Hash, events: seq<Event>, now: int)
    ensures var verdicts := Verdicts(cfg, chain, events, now);
      |verdicts| == |events| && forall i :: 0 <= i < |events| ==> Judges(cfg, events, now, i, verdicts[i])
  {
    hide Judges, VerdictAt;
    var verdicts := Verdicts(cfg, chain, events, now);
    forall i | 0 <= i < |events| ensures Judges(cfg, events, now, i, verdicts[i]) {
      VerdictJudges(cfg, chain, events, now, i);
    }
  }

  lemma AnswerCounts(cfg: Config, chain: Hash, events: seq<Event>, now: int)
    ensures var answer := Answer(cfg, chain, events, now);
      && answer.events == Verdicts(cfg, chain, events, now) && answer.at == now
      && answer.accepted == |AcceptedOnes(answer.events)| && answer.rejected == |events| - answer.accepted
      && answer.outOfWindow == (if cfg.enforceAge then 0 else |StaleOnes(cfg, events, now)|)
  {
    hide Verdicts, StaleOnes, AcceptedOnes, AcceptedAmong, StaleAmong;
    var verdicts := Verdicts(cfg, chain, events, now);
    StaleAreCounted(cfg, events, now, |events|);
    AcceptedAreCounted(verdicts, |verdicts|);
    assert events[..|events|] == events && verdicts[..|verdicts|] == verdicts;
  }

  /** The answer to a request that is let through and not replayed: one verdict an event, in
      order, each right about its event; as many accepted and rejected as they say, and the
      stale events counted that were let through. */
  lemma AnswerIsRight(cfg: Config, m: Service, req: Request)
    requires Looked(cfg, m, req)
    ensures var result := Ingest(cfg, m, req).1;
      && result.Ok? && |result.value.events| == |req.events|
      && (forall i :: 0 <= i < |req.events| ==> Judges(cfg, req.events, req.now, i, result.value.events[i]))
      && result.value.accepted == |AcceptedOnes(result.value.events)|
      && result.value.rejected == |req.events| - result.value.accepted
      && result.value.outOfWindow == (if cfg.enforceAge then 0 else |StaleOnes(cfg, req.events, req.now)|)
      && result.value.at == req.now
  {
    hide Judges, Verdicts, Answer, StaleOnes, AcceptedOnes, Ingest, Looked;
    LookedAtAnswers(cfg, m, req);
    VerdictsJudge(cfg, m.chain, req.events, req.now);
    AnswerCounts(cfg, m.chain, req.events, req.now);
  }

  // ------------------------------------------------------------------ what is remembered

  /** A request without a key, or under an empty one, is never replayed and never remembered;
      one under a key that is answered is remembered under it, newest of all. */
  lemma RememberedUnderItsKey(cfg: Config, m: Service, req: Request)
    requires Gate(req).None?
    ensures var (m', result) := Ingest(cfg, m, req);
      && result.Ok?
      && (req.key.None? || req.key == Some("") ==> Looked(cfg, m, req) && m'.cache == m.cache)
      && (req.key.Some? && req.key != Some("") ==>
            var newest := m'.cache[|m'.cache| - 1];
            m'.cache != [] && newest.key == req.key.value && newest.response == result.value
            && (Looked(cfg, m, req) ==> newest.at == req.now))
  {
    hide Answer, ChainAfter, Gate;
  }

  // ------------------------------------------------------------------ the batch key's place

  /** Without a name, places are told apart by their GLNs. */
  lemma GlnsTellPlacesApart(cfg: Config, d: Event, e: Event)
    requires d.location == "" && e.location == "" && d.gln.Some? && e.gln.Some?
    ensures Place(d) == Place(e) <==> d.gln == e.gln
  {}

  /** With a name, the GLN does not count: two places of one name are one. */
  lemma NamesHideGlns(cfg: Config, d: Event, e: Event)
    requires d.location != "" && e.location != ""
    ensures Place(d) == Place(e) <==> d.location == e.location
    ensures BatchKey(cfg, d) == BatchKey(cfg, d.(gln := e.gln))
  {}
}
