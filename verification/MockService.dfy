/**
 `MockRegEngineService`: the object whose `ingest` and `reset` update the chain and the
 ordered cache in place.
 */
module MockService {
  import opened Common
  import opened Records
  import opened MockSpec

  /** The batch keys of the first `n` events. */
  function KeysSeen(cfg: Config, events: seq<Event>, n: nat): set<string>
    requires n <= |events|
  {
    set j | 0 <= j < n :: BatchKey(cfg, events[j])
  }

  lemma NothingSeen(cfg: Config, events: seq<Event>)
    ensures KeysSeen(cfg, events, 0) == {}
  {}

  lemma SeenIffRepeats(cfg: Config, events: seq<Event>, i: nat)
    requires i < |events|
    ensures BatchKey(cfg, events[i]) in KeysSeen(cfg, events, i) <==> Repeats(cfg, events, i)
  {
    hide BatchKey;
  }

  lemma KeysSeenNext(cfg: Config, events: seq<Event>, i: nat)
    requires i < |events|
    ensures KeysSeen(cfg, events, i + 1) == KeysSeen(cfg, events, i) + {BatchKey(cfg, events[i])}
  {
    hide BatchKey;
  }

  class MockRegEngineService {
    const cfg: Config
    var chain: Hash
    var cache: seq<Entry>

    function View(): Service
      reads this
    {
      Service(chain, cache)
    }

    /** `resumed` is the tip read back from a store's log, or "". */
    constructor (cfg: Config, resumed: Hash)
      ensures this.cfg == cfg && View() == Service(resumed, [])
    {
      this.cfg, this.chain, this.cache := cfg, resumed, [];
    }

    method Reset()
      modifies this
      ensures View() == Serve(cfg, old(View()), None)
    {
      chain := "";
      cache := [];
    }

    /** Everything that fails the whole request, in the order it is checked. */
    method CheckRequest(req: Request) returns (status: Option<nat>)
      ensures status == Gate(req)
    {
      if !req.signed {
        return Some(401);
      }
      for i := 0 to |req.friction|
        invariant i == 0
      {
        return Some(FrictionStatus(req.friction[i]));
      }
      if |req.events| < MIN_BATCH_EVENTS || |req.events| > MAX_BATCH_EVENTS {
        return Some(422);
      }
      var faults := 0;
      for i := 0 to |req.events|
        invariant 0 <= faults
        invariant faults > 0 <==> exists j :: 0 <= j < i && FieldFault(req.events[j], req.now, req.wall)
      {
        if FieldFault(req.events[i], req.now, req.wall) {
          faults := faults + 1;
        }
      }
      status := if faults > 0 then Some(422) else None;
    }

    /** One event's faults, given the batch keys of the events before it. */
    method LookAt(events: seq<Event>, now: int, i: nat, seen: set<string>)
      returns (errors: seq<Fault>, seen': set<string>)
      requires i < |events| && seen == KeysSeen(cfg, events, i)
      ensures errors == ErrorsAt(cfg, events, now, i)
      ensures seen' == KeysSeen(cfg, events, i + 1)
    {
      hide HandlerErrors, BatchKey;
      errors := HandlerErrors(cfg, events[i], now);
      var key := BatchKey(cfg, events[i]);
      SeenIffRepeats(cfg, events, i);
      KeysSeenNext(cfg, events, i);
      hide KeysSeen, Repeats;
      if key in seen {
        errors := errors + [DuplicateInBatch];
      }
      seen' := seen + {key};
    }

    /** The loop over the events of a batch. */
    method LookAtEvents(events: seq<Event>, now: int) returns (verdicts: seq<Verdict>, accepted: nat, stale: nat)
      modifies this`chain
      ensures verdicts == Verdicts(cfg, old(chain), events, now)
      ensures accepted == AcceptedAmong(verdicts, |verdicts|)
      ensures stale == StaleAmong(cfg, events, now, |events|)
      ensures chain == ChainAfter(cfg, old(chain), events, now, |events|)
    {
      hide ErrorsAt, KeysSeen, OutOfWindow;
      NothingSeen(cfg, events);
      ghost var all := Verdicts(cfg, chain, events, now);
      var seen: set<string> := {};
      verdicts, accepted, stale := [], 0, 0;
      for i := 0 to |events|
        invariant |verdicts| == i && forall j :: 0 <= j < i ==> verdicts[j] == all[j]
        invariant accepted == AcceptedAmong(all, i)
        invariant stale == StaleAmong(cfg, events, now, i)
        invariant seen == KeysSeen(cfg, events, i)
        invariant chain == ChainAfter(cfg, old(chain), events, now, i)
      {
        var e := events[i];
        if !cfg.enforceAge && OutOfWindow(cfg, e, now) {
          stale := stale + 1;
        }
        var errors;
        errors, seen := LookAt(events, now, i, seen);
        if errors != [] {
          verdicts := verdicts + [Verdict(Some(e.lot), Some(e.cte), false, errors, "")];
        } else {
          chain := cfg.link(chain, cfg.digest(e));
          accepted := accepted + 1;
          verdicts := verdicts + [Verdict(Some(e.lot), Some(e.cte), true, [], chain)];
        }
      }
      assert verdicts == all;
    }

    method Find(key: string) returns (slot: Option<nat>)
      ensures slot.Some? <==> Holds(cache, key)
      ensures slot.Some? ==> slot.value == Slot(cache, key)
    {
      slot := None;
      for i := 0 to |cache|
        invariant slot.Some? <==> HoldsAmong(cache, i, key)
        invariant slot.Some? ==> slot.value == SlotAmong(cache, i, key)
      {
        if cache[i].key == key {
          slot := Some(i);
        }
      }
    }

    /** The entry goes to the new end; the oldest fall out while there are too many. */
    method Remember(entry: Entry)
      modifies this`cache
      ensures cache == LastN(old(cache) + [entry], IDEMPOTENCY_CACHE_LIMIT)
    {
      cache := cache + [entry];
      ghost var all := cache;
      while |cache| > IDEMPOTENCY_CACHE_LIMIT
        invariant |cache| <= |all| && cache == all[|all| - |cache|..]
        invariant |all| <= IDEMPOTENCY_CACHE_LIMIT ==> cache == all
        invariant |all| > IDEMPOTENCY_CACHE_LIMIT ==> |cache| >= IDEMPOTENCY_CACHE_LIMIT
      {
        cache := cache[1..];
      }
    }

    method Ingest(req: Request) returns (result: Result<Response, HttpError>)
      modifies this
      ensures (View(), result) == MockSpec.Ingest(cfg, old(View()), req)
    {
      hide Gate, ErrorsAt, AcceptedAmong;
      var status := CheckRequest(req);
      if status.Some? {
        return Err(HttpError(status.value));
      }
      var keyed := req.key.Some? && req.key.value != "";
      if keyed {
        var slot := Find(req.key.value);
        if slot.Some? {
          var entry := cache[slot.value];
          if req.now - entry.at < cfg.ttl {
            cache := Cut(cache, slot.value) + [entry];
            return Ok(entry.response);
          }
          cache := Cut(cache, slot.value);
        }
      }
      var verdicts, accepted, stale := LookAtEvents(req.events, req.now);
      var response := Response(accepted, |req.events| - accepted, verdicts, req.now, stale);
      if keyed {
        Remember(Entry(req.key.value, response, req.now));
      }
      result := Ok(response);
    }
  }
}
