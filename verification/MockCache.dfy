/**
 The bounded idempotency cache against a service that forgets nothing: one that remembers
 the last fresh answer under every key and the whole sequence of touches.
 */
module MockCache {
  import opened Common
  import opened Records
  import opened MockSpec

  /** `memory` is unbounded and `touched` only grows, except at a reset. */
  datatype Reference = Reference(chain: Hash, memory: map<string, Entry>, touched: seq<string>)

  /** The distinct keys touched since the last touch of `key`. */
  function Since(touched: seq<string>, key: string): set<string> {
    if touched == [] || touched[|touched| - 1] == key then {}
    else Since(touched[..|touched| - 1], key) + {touched[|touched| - 1]}
  }

  /** Fewer than 1024 other keys were touched since this one was. */
  predicate Recent(touched: seq<string>, key: string) {
    key in touched && |Since(touched, key)| < 1024
  }

  predicate Known(r: Reference, req: Request) {
    Keyed(req) && Recent(r.touched, req.key.value) && req.key.value in r.memory
  }

  function ReferFresh(cfg: Config, r: Reference, req: Request): (Reference, Response) {
    var response := Answer(cfg, r.chain, req.events, req.now);
    var chain := ChainAfter(cfg, r.chain, req.events, req.now, |req.events|);
    if !Keyed(req) then (r.(chain := chain), response)
    else
      var key := req.key.value;
      (Reference(chain, r.memory[key := Entry(key, response, req.now)], r.touched + [key]), response)
  }

  function Refer(cfg: Config, r: Reference, req: Request): (Reference, Result<Response, HttpError>) {
    var gate := Gate(req);
    if gate.Some? then (r, Err(HttpError(gate.value)))
    else if Known(r, req) && req.now - r.memory[req.key.value].at < cfg.ttl then
      (r.(touched := r.touched + [req.key.value]), Ok(r.memory[req.key.value].response))
    else
      var (r', response) := ReferFresh(cfg, r, req);
      (r', Ok(response))
  }

  function ReferAll(cfg: Config, r: Reference, calls: seq<Option<Request>>): Reference
    decreases |calls|
  {
    if calls == [] then r
    else
      var before := ReferAll(cfg, r, calls[..|calls| - 1]);
      var call := calls[|calls| - 1];
      if call.None? then Reference("", map[], []) else Refer(cfg, before, call.value).0
  }

  // ---------------------------------------------------------------- keys of a cache

  /** The keys from slot `i` on. */
  function KeysFrom(cache: seq<Entry>, i: nat): set<string>
    requires i <= |cache|
    decreases |cache| - i
  {
    if i == |cache| then {} else {cache[i].key} + KeysFrom(cache, i + 1)
  }

  predicate Differ(cache: seq<Entry>, i: nat, j: nat)
    requires i < |cache| && j < |cache|
  {
    cache[i].key != cache[j].key
  }

  ghost predicate Distinct(cache: seq<Entry>) {
    forall i: nat, j: nat :: i < j < |cache| ==> Differ(cache, i, j)
  }

  lemma {:induction false} NotInKeysFrom(cache: seq<Entry>, i: nat, key: string)
    requires i <= |cache| && forall j :: i <= j < |cache| ==> cache[j].key != key
    ensures key !in KeysFrom(cache, i)
    decreases |cache| - i
  {
    if i == |cache| {
    } else {
      NotInKeysFrom(cache, i + 1, key);
    }
  }

  lemma {:induction false} KeysCounted(cache: seq<Entry>, i: nat)
    requires Distinct(cache) && i <= |cache|
    ensures |KeysFrom(cache, i)| == |cache| - i
    decreases |cache| - i
  {
    if i == |cache| {
    } else {
      KeysCounted(cache, i + 1);
      forall j | i + 1 <= j < |cache| ensures cache[j].key != cache[i].key {
        assert Differ(cache, i, j);
      }
      NotInKeysFrom(cache, i + 1, cache[i].key);
    }
  }

  lemma {:induction false} AppendedKeys(cache: seq<Entry>, e: Entry, i: nat)
    requires i <= |cache|
    ensures KeysFrom(cache + [e], i) == KeysFrom(cache, i) + {e.key}
    decreases |cache| - i
  {
    if i < |cache| {
      AppendedKeys(cache, e, i + 1);
    } else {
      assert KeysFrom(cache + [e], i + 1) == {};
    }
  }

  lemma {:induction false} ShiftedKeys(cache: seq<Entry>, p: nat, i: nat)
    requires p < |cache| && p <= i < |cache|
    ensures KeysFrom(Cut(cache, p), i) == KeysFrom(cache, i + 1)
    decreases |cache| - i
  {
    if i == |cache| - 1 {
    } else {
      ShiftedKeys(cache, p, i + 1);
    }
  }

  lemma {:induction false} CutKeys(cache: seq<Entry>, p: nat, i: nat)
    requires i <= p < |cache|
    ensures KeysFrom(cache, i) == KeysFrom(Cut(cache, p), i) + {cache[p].key}
    decreases p - i
  {
    if i < p {
      CutKeys(cache, p, i + 1);
    } else {
      ShiftedKeys(cache, p, p);
    }
  }

  // --------------------------------------------------------------- the simulation

  /** Slot `i` of the cache against the touches and the memory: exactly the keys behind it
      were touched since it was, and it holds what memory has under its key. */
  ghost predicate Listed(cache: seq<Entry>, touched: seq<string>, i: nat)
    requires i < |cache|
  {
    cache[i].key in touched && Since(touched, cache[i].key) == KeysFrom(cache, i + 1)
  }

  predicate Remembers(memory: map<string, Entry>, e: Entry) {
    e.key in memory && memory[e.key] == e
  }

  /** A touched key that the cache does not hold was pushed out by newer ones. */
  ghost predicate PushedOut(cache: seq<Entry>, touched: seq<string>, key: string) {
    |cache| == IDEMPOTENCY_CACHE_LIMIT && KeysFrom(cache, 0) <= Since(touched, key)
  }

  ghost predicate InTouchOrder(cache: seq<Entry>, touched: seq<string>) {
    && |cache| <= IDEMPOTENCY_CACHE_LIMIT
    && Distinct(cache)
    && (forall i: nat :: i < |cache| ==> Listed(cache, touched, i))
    && (forall key :: key in touched && !Holds(cache, key) ==> PushedOut(cache, touched, key))
  }

  ghost predicate Tracks(m: Service, r: Reference) {
    && m.chain == r.chain
    && InTouchOrder(m.cache, r.touched)
    && (forall i: nat :: i < |m.cache| ==> Remembers(r.memory, m.cache[i]))
  }

  lemma SinceGrows(touched: seq<string>, key: string, other: string)
    ensures Since(touched + [key], other) == if other == key then {} else Since(touched, other) + {key}
  {
    assert (touched + [key])[..|touched|] == touched;
  }

  lemma {:induction false} Fewer(x: set<string>, y: set<string>)
    requires x <= y
    ensures |x| <= |y|
  {
    assert y == x + (y - x);
  }

  /** The keys held are the recent ones; the one at distance `d` from the newest end is the
      one since whose last touch exactly `d` other keys were touched. */
  lemma HeldIsRecent(cache: seq<Entry>, touched: seq<string>, key: string)
    requires InTouchOrder(cache, touched)
    ensures Recent(touched, key) <==> Holds(cache, key)
    ensures Holds(cache, key) ==> |Since(touched, key)| == |cache| - 1 - Slot(cache, key)
  {
    if Holds(cache, key) {
      assert Listed(cache, touched, Slot(cache, key));
      KeysCounted(cache, Slot(cache, key) + 1);
    } else if key in touched {
      assert PushedOut(cache, touched, key);
      KeysCounted(cache, 0);
      Fewer(KeysFrom(cache, 0), Since(touched, key));
    }
  }

  /** Taking a key out of the cache, in preparation of touching it. */
  ghost predicate Prepared(cache: seq<Entry>, rest: seq<Entry>, touched: seq<string>, key: string) {
    && Distinct(rest) && !Holds(rest, key)
    && (forall i: nat :: i < |rest| ==>
         rest[i].key in touched && Since(touched, rest[i].key) + {key} == KeysFrom(rest, i + 1) + {key})
    && KeysFrom(cache, 0) + {key} == KeysFrom(rest, 0) + {key}
    && |rest| == (if Holds(cache, key) then |cache| - 1 else |cache|)
    && (forall other :: other != key ==> (Holds(rest, other) <==> Holds(cache, other)))
  }

  lemma CutHolds(cache: seq<Entry>, p: nat, other: string)
    requires p < |cache| && other != cache[p].key
    ensures Holds(Cut(cache, p), other) <==> Holds(cache, other)
  {
    var rest := Cut(cache, p);
    if Holds(cache, other) {
      var i := Slot(cache, other);
      assert rest[if i < p then i else i - 1].key == other;
    }
    if Holds(rest, other) {
      var i := Slot(rest, other);
      assert cache[if i < p then i else i + 1].key == other;
    }
  }

  lemma CutDistinct(cache: seq<Entry>, p: nat)
    requires Distinct(cache) && p < |cache|
    ensures Distinct(Cut(cache, p)) && !Holds(Cut(cache, p), cache[p].key)
  {
    var rest := Cut(cache, p);
    forall i: nat, j: nat | i < j < |rest| ensures Differ(rest, i, j) {
      assert Differ(cache, if i < p then i else i + 1, if j < p then j else j + 1);
    }
    forall i: nat | i < |rest| ensures rest[i].key != cache[p].key {
      var j := if i < p then i else i + 1;
      assert if j < p then Differ(cache, j, p) else Differ(cache, p, j);
    }
  }

  lemma CutListed(cache: seq<Entry>, touched: seq<string>, p: nat, i: nat)
    requires InTouchOrder(cache, touched) && p < |cache| && i < |cache| - 1
    ensures var e := Cut(cache, p)[i];
      e.key in touched
      && Since(touched, e.key) + {cache[p].key} == KeysFrom(Cut(cache, p), i + 1) + {cache[p].key}
  {
    if i < p {
      assert Listed(cache, touched, i);
      CutKeys(cache, p, i + 1);
    } else {
      assert Listed(cache, touched, i + 1);
      ShiftedKeys(cache, p, i + 1);
    }
  }

  lemma ForgetPrepares(cache: seq<Entry>, touched: seq<string>, key: string)
    requires InTouchOrder(cache, touched)
    ensures Prepared(cache, Forget(cache, key), touched, key)
  {
    if Holds(cache, key) {
      var p := Slot(cache, key);
      CutDistinct(cache, p);
      CutKeys(cache, p, 0);
      forall i: nat | i < |cache| - 1
        ensures Cut(cache, p)[i].key in touched
        ensures Since(touched, Cut(cache, p)[i].key) + {key} == KeysFrom(Cut(cache, p), i + 1) + {key}
      {
        CutListed(cache, touched, p, i);
      }
      forall other | other != key ensures Holds(Cut(cache, p), other) <==> Holds(cache, other) {
        CutHolds(cache, p, other);
      }
    } else {
      forall i: nat | i < |cache|
        ensures cache[i].key in touched && Since(touched, cache[i].key) == KeysFrom(cache, i + 1)
      {
        assert Listed(cache, touched, i);
      }
    }
  }

  /** In touch order, but perhaps one entry too many. */
  ghost predicate Appended(cache: seq<Entry>, touched: seq<string>) {
    && Distinct(cache)
    && (forall i: nat :: i < |cache| ==> Listed(cache, touched, i))
    && (forall key :: key in touched && !Holds(cache, key) ==>
         IDEMPOTENCY_CACHE_LIMIT <= |cache| && KeysFrom(cache, 0) <= Since(touched, key))
  }

  lemma AppendListed(cache: seq<Entry>, rest: seq<Entry>, touched: seq<string>, e: Entry, i: nat)
    requires Prepared(cache, rest, touched, e.key) && i <= |rest|
    ensures Listed(rest + [e], touched + [e.key], i)
  {
    SinceGrows(touched, e.key, (rest + [e])[i].key);
    if i < |rest| {
      AppendedKeys(rest, e, i + 1);
    } else {
      assert (touched + [e.key])[|touched|] == e.key;
    }
  }

  lemma AppendDistinct(rest: seq<Entry>, e: Entry)
    requires Distinct(rest) && !Holds(rest, e.key)
    ensures Distinct(rest + [e])
  {
    forall i: nat, j: nat | i < j < |rest + [e]| ensures Differ(rest + [e], i, j) {
      if j < |rest| {
        assert Differ(rest, i, j);
      }
    }
  }

  lemma AppendHolds(rest: seq<Entry>, e: Entry, key: string)
    ensures Holds(rest + [e], key) <==> key == e.key || Holds(rest, key)
  {
    var all := rest + [e];
    if Holds(rest, key) {
      assert all[Slot(rest, key)].key == key;
    }
    assert all[|rest|] == e;
    if Holds(all, key) && Slot(all, key) < |rest| {
      assert rest[Slot(all, key)].key == key;
    }
  }

  lemma AppendTouch(cache: seq<Entry>, rest: seq<Entry>, touched: seq<string>, e: Entry)
    requires InTouchOrder(cache, touched) && Prepared(cache, rest, touched, e.key)
    ensures Appended(rest + [e], touched + [e.key])
  {
    AppendDistinct(rest, e);
    forall i: nat | i < |rest + [e]| ensures Listed(rest + [e], touched + [e.key], i) {
      AppendListed(cache, rest, touched, e, i);
    }
    forall key | key in touched + [e.key] && !Holds(rest + [e], key)
      ensures IDEMPOTENCY_CACHE_LIMIT <= |rest + [e]|
      ensures KeysFrom(rest + [e], 0) <= Since(touched + [e.key], key)
    {
      AppendHolds(rest, e, key);
      AppendedKeys(rest, e, 0);
      SinceGrows(touched, e.key, key);
      assert PushedOut(cache, touched, key);
    }
  }

  /** popitem(last=False) */
  lemma EvictOldest(cache: seq<Entry>, touched: seq<string>)
    requires Appended(cache, touched) && |cache| <= IDEMPOTENCY_CACHE_LIMIT + 1
    ensures InTouchOrder(LastN(cache, IDEMPOTENCY_CACHE_LIMIT), touched)
  {
    if |cache| == IDEMPOTENCY_CACHE_LIMIT + 1 {
      var kept := Cut(cache, 0);
      assert kept == LastN(cache, IDEMPOTENCY_CACHE_LIMIT);
      CutDistinct(cache, 0);
      ShiftedKeys(cache, 0, 0);
      forall i: nat | i < |kept| ensures Listed(kept, touched, i) {
        assert Listed(cache, touched, i + 1);
        ShiftedKeys(cache, 0, i + 1);
      }
      forall key | key in touched && !Holds(kept, key) ensures PushedOut(kept, touched, key) {
        if key == cache[0].key {
          assert Listed(cache, touched, 0);
        } else {
          CutHolds(cache, 0, key);
        }
      }
    } else {
      forall key | key in touched && !Holds(cache, key) ensures PushedOut(cache, touched, key) {}
    }
  }

  /** One touch of the cache and of the list of touches. */
  lemma TouchKeepsOrder(cache: seq<Entry>, touched: seq<string>, e: Entry)
    requires InTouchOrder(cache, touched)
    ensures InTouchOrder(LastN(Forget(cache, e.key) + [e], IDEMPOTENCY_CACHE_LIMIT), touched + [e.key])
  {
    ForgetPrepares(cache, touched, e.key);
    AppendTouch(cache, Forget(cache, e.key), touched, e);
    EvictOldest(Forget(cache, e.key) + [e], touched + [e.key]);
  }

  lemma TouchKeepsMemory(cache: seq<Entry>, memory: map<string, Entry>, e: Entry, i: nat)
    requires forall j: nat :: j < |cache| ==> Remembers(memory, cache[j])
    requires Distinct(cache) && i < |LastN(Forget(cache, e.key) + [e], IDEMPOTENCY_CACHE_LIMIT)|
    ensures Remembers(memory[e.key := e], LastN(Forget(cache, e.key) + [e], IDEMPOTENCY_CACHE_LIMIT)[i])
  {
    var all := Forget(cache, e.key) + [e];
    var j := if |all| <= IDEMPOTENCY_CACHE_LIMIT then i else i + |all| - IDEMPOTENCY_CACHE_LIMIT;
    if j < |all| - 1 {
      if Holds(cache, e.key) {
        var p := Slot(cache, e.key);
        CutDistinct(cache, p);
        assert all[j] == cache[if j < p then j else j + 1];
      }
      assert all[j] == Forget(cache, e.key)[j];
      assert all[j].key != e.key;
    }
  }

  lemma TouchKeepsTrack(m: Service, r: Reference, e: Entry, chain: Hash)
    requires Tracks(m, r)
    ensures Tracks(Service(chain, LastN(Forget(m.cache, e.key) + [e], IDEMPOTENCY_CACHE_LIMIT)),
                   Reference(chain, r.memory[e.key := e], r.touched + [e.key]))
  {
    TouchKeepsOrder(m.cache, r.touched, e);
    forall i: nat | i < |LastN(Forget(m.cache, e.key) + [e], IDEMPOTENCY_CACHE_LIMIT)|
      ensures Remembers(r.memory[e.key := e], LastN(Forget(m.cache, e.key) + [e], IDEMPOTENCY_CACHE_LIMIT)[i])
    {
      TouchKeepsMemory(m.cache, r.memory, e, i);
    }
  }

  lemma ReplayKeepsSize(cache: seq<Entry>, e: Entry)
    requires Holds(cache, e.key) && |cache| <= IDEMPOTENCY_CACHE_LIMIT
    ensures LastN(Forget(cache, e.key) + [e], IDEMPOTENCY_CACHE_LIMIT) == Forget(cache, e.key) + [e]
  {}

  lemma KnownIsHeld(m: Service, r: Reference, req: Request)
    requires Tracks(m, r) && Keyed(req)
    ensures Holds(m.cache, req.key.value) <==> Known(r, req)
    ensures Known(r, req) ==> r.memory[req.key.value] == m.cache[Slot(m.cache, req.key.value)]
  {
    HeldIsRecent(m.cache, r.touched, req.key.value);
    if Holds(m.cache, req.key.value) {
      assert Remembers(r.memory, m.cache[Slot(m.cache, req.key.value)]);
    }
  }

  lemma FreshRefers(cfg: Config, m: Service, r: Reference, req: Request)
    requires Tracks(m, r)
    ensures IngestFresh(cfg, m, req).1 == ReferFresh(cfg, r, req).1
    ensures Tracks(IngestFresh(cfg, m, req).0, ReferFresh(cfg, r, req).0)
  {
    if Keyed(req) {
      var e := Entry(req.key.value, Answer(cfg, m.chain, req.events, req.now), req.now);
      TouchKeepsTrack(m, r, e, ChainAfter(cfg, m.chain, req.events, req.now, |req.events|));
    }
  }

  lemma ReplayRefers(cfg: Config, m: Service, r: Reference, req: Request)
    requires Tracks(m, r) && Replays(cfg, m, req)
    ensures var e := m.cache[Slot(m.cache, req.key.value)];
      Tracks(m.(cache := Forget(m.cache, e.key) + [e]), r.(touched := r.touched + [req.key.value]))
  {
    var e := m.cache[Slot(m.cache, req.key.value)];
    assert Remembers(r.memory, e);
    assert r.memory[e.key := e] == r.memory;
    TouchKeepsTrack(m, r, e, m.chain);
    ReplayKeepsSize(m.cache, e);
  }

  /** Every call has the same answer, and the two go on alike. */
  lemma IngestRefers(cfg: Config, m: Service, r: Reference, req: Request)
    requires Tracks(m, r)
    ensures Ingest(cfg, m, req).1 == Refer(cfg, r, req).1
    ensures Tracks(Ingest(cfg, m, req).0, Refer(cfg, r, req).0)
  {
    if Gate(req).None? {
      if Keyed(req) {
        KnownIsHeld(m, r, req);
      }
      if Replays(cfg, m, req) {
        ReplayRefers(cfg, m, r, req);
      } else {
        FreshRefers(cfg, m, r, req);
      }
    }
  }

  /** Over any run of calls and resets the bounded cache is exactly what the unbounded
      service would replay from: the keys it holds are the last 1024 distinct ones in touch
      order, each with the last fresh answer given under it. */
  lemma {:induction false} CacheRefinesMemory(cfg: Config, chain: Hash, calls: seq<Option<Request>>)
    ensures Tracks(Run(cfg, Service(chain, []), calls), ReferAll(cfg, Reference(chain, map[], []), calls))
    decreases |calls|
  {
    if calls == [] {
    } else {
      var front := calls[..|calls| - 1];
      var call := calls[|calls| - 1];
      CacheRefinesMemory(cfg, chain, front);
      if call.Some? {
        IngestRefers(cfg, Run(cfg, Service(chain, []), front), ReferAll(cfg, Reference(chain, map[], []), front), call.value);
      }
    }
  }

  /** So after any run a call answers as the unbounded service does, and one that is
      replayed leaves the chain alone. */
  lemma AnswersRefine(cfg: Config, chain: Hash, calls: seq<Option<Request>>, req: Request)
    ensures var m := Run(cfg, Service(chain, []), calls);
      var r := ReferAll(cfg, Reference(chain, map[], []), calls);
      && Ingest(cfg, m, req).1 == Refer(cfg, r, req).1
      && (Known(r, req) && Gate(req).None? && req.now - r.memory[req.key.value].at < cfg.ttl ==>
            && Ingest(cfg, m, req).1 == Ok(r.memory[req.key.value].response)
            && Ingest(cfg, m, req).0.chain == m.chain)
      && (Keyed(req) && Gate(req).None? && !Recent(r.touched, req.key.value) ==>
            Ingest(cfg, m, req).1 == Ok(Answer(cfg, m.chain, req.events, req.now)))
  {
    CacheRefinesMemory(cfg, chain, calls);
    IngestRefers(cfg, Run(cfg, Service(chain, []), calls), ReferAll(cfg, Reference(chain, map[], []), calls), req);
  }
}
