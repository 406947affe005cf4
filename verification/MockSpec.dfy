/**
 What one call of the mock RegEngine's `ingest` answers and leaves behind.
 */
module MockSpec {
  import opened Common
  import opened Records

  const MIN_BATCH_EVENTS: nat := 1
  const MAX_BATCH_EVENTS: nat := 500
  const IDEMPOTENCY_CACHE_LIMIT: nat := 1024
  const HOUR: int := 3600 * 1000000
  const MAX_FUTURE: int := 24 * HOUR
  const DAY: int := 24 * HOUR

  /** Hashes and time formatting are not interpreted. */
  datatype Config = Config(
    ttl: int,
    enforceAge: bool,
    maxAgeDays: int,
    digest: Event -> Hash,
    link: (Hash, Hash) -> Hash,
    iso: (int, Option<int>) -> string)

  datatype Request = Request(
    events: seq<Event>,
    key: Option<string>,
    friction: seq<string>,
    signed: bool,      // the signature gate lets the request through
    now: int,          // the service's clock
    wall: int)         // the wall clock the future ceiling also respects

  datatype Response = Response(
    accepted: nat, rejected: nat, events: seq<Verdict>, at: int, outOfWindow: nat)

  datatype HttpError = HttpError(status: nat)

  /** One slot of the idempotency cache. */
  datatype Entry = Entry(key: string, response: Response, at: int)

  /** The cache is an OrderedDict: oldest first, keys distinct. */
  datatype Service = Service(chain: Hash, cache: seq<Entry>)

  // ------------------------------------------------------------ the request-level gate

  function FrictionStatus(code: string): nat {
    match code
    case "invalid_key" => 401
    case "subscription_inactive" => 402
    case "rate_limit" => 429
    case _ => 400
  }

  /** A field constraint of the request model: fatal for the whole batch. */
  predicate FieldFault(e: Event, now: int, wall: int) {
    || |e.lot| < 3
    || !(1 <= |e.description| <= 500)
    || e.quantity <= 0
    || e.timestamp > Max(now, wall) + MAX_FUTURE
  }

  /** The status the whole request fails with before any event is looked at on its own. */
  function Gate(req: Request): Option<nat> {
    if !req.signed then Some(401)
    else if req.friction != [] then Some(FrictionStatus(req.friction[0]))
    else if |req.events| < MIN_BATCH_EVENTS || |req.events| > MAX_BATCH_EVENTS then Some(422)
    else if exists i :: 0 <= i < |req.events| && FieldFault(req.events[i], req.now, req.wall) then Some(422)
    else None
  }

  // -------------------------------------------------------------------- per event

  predicate OutOfWindow(cfg: Config, e: Event, now: int) {
    e.timestamp < now - cfg.maxAgeDays * DAY
  }

  /** Handler-level checks: they reject one event only. */
  function HandlerErrors(cfg: Config, e: Event, now: int): seq<Fault> {
    (if cfg.enforceAge && OutOfWindow(cfg, e, now) then [TooOld] else [])
    + (if e.located then [] else [NoLocation])
    + (if e.complete then [] else [MissingKdes])
  }

  function CteName(c: Cte): string {
    match c
    case Harvesting => "harvesting"
    case Cooling => "cooling"
    case InitialPacking => "initial_packing"
    case FirstLandBasedReceiving => "first_land_based_receiving"
    case Shipping => "shipping"
    case Receiving => "receiving"
    case Transformation => "transformation"
  }

  /** The location's name, failing that its GLN, failing that nothing. */
  function Place(e: Event): string {
    if e.location != "" then e.location else if e.gln.Some? then e.gln.value else ""
  }

  function BatchKey(cfg: Config, e: Event): string {
    CteName(e.cte) + "|" + e.lot + "|" + cfg.iso(e.timestamp, e.offset) + "|" + Place(e)
  }

  predicate Repeats(cfg: Config, events: seq<Event>, i: nat)
    requires i < |events|
  {
    exists j :: 0 <= j < i && BatchKey(cfg, events[j]) == BatchKey(cfg, events[i])
  }

  function ErrorsAt(cfg: Config, events: seq<Event>, now: int, i: nat): seq<Fault>
    requires i < |events|
  {
    HandlerErrors(cfg, events[i], now) + if Repeats(cfg, events, i) then [DuplicateInBatch] else []
  }

  predicate Accepts(cfg: Config, events: seq<Event>, now: int, i: nat)
    requires i < |events|
  {
    ErrorsAt(cfg, events, now, i) == []
  }

  /** The chain tip after the first `n` events of a batch. */
  function ChainAfter(cfg: Config, chain: Hash, events: seq<Event>, now: int, n: nat): Hash
    requires n <= |events|
  {
    if n == 0 then chain
    else
      var before := ChainAfter(cfg, chain, events, now, n - 1);
      if Accepts(cfg, events, now, n - 1) then cfg.link(before, cfg.digest(events[n - 1])) else before
  }

  function VerdictAt(cfg: Config, chain: Hash, events: seq<Event>, now: int, i: nat): Verdict
    requires i < |events|
  {
    var e := events[i];
    if Accepts(cfg, events, now, i) then
      Verdict(Some(e.lot), Some(e.cte), true, [], ChainAfter(cfg, chain, events, now, i + 1))
    else
      Verdict(Some(e.lot), Some(e.cte), false, ErrorsAt(cfg, events, now, i), "")
  }

  function Verdicts(cfg: Config, chain: Hash, events: seq<Event>, now: int): (r: seq<Verdict>)
    ensures |r| == |events|
    ensures forall i :: 0 <= i < |r| ==> r[i] == VerdictAt(cfg, chain, events, now, i)
  {
    seq(|events|, i requires 0 <= i < |events| => VerdictAt(cfg, chain, events, now, i))
  }

  /** How many of the first `n` verdicts accept. */
  function AcceptedAmong(verdicts: seq<Verdict>, n: nat): (k: nat)
    requires n <= |verdicts|
    ensures k <= n
  {
    if n == 0 then 0 else AcceptedAmong(verdicts, n - 1) + if verdicts[n - 1].accepted then 1 else 0
  }

  function StaleAmong(cfg: Config, events: seq<Event>, now: int, n: nat): nat
    requires n <= |events|
  {
    if n == 0 then 0
    else StaleAmong(cfg, events, now, n - 1)
         + if !cfg.enforceAge && OutOfWindow(cfg, events[n - 1], now) then 1 else 0
  }

  /** The answer to a batch whose events are all looked at. */
  function Answer(cfg: Config, chain: Hash, events: seq<Event>, now: int): Response {
    var verdicts := Verdicts(cfg, chain, events, now);
    var accepted := AcceptedAmong(verdicts, |verdicts|);
    Response(accepted, |events| - accepted, verdicts, now, StaleAmong(cfg, events, now, |events|))
  }

  // -------------------------------------------------------------------- the cache

  function Keys(cache: seq<Entry>): (r: seq<string>)
    ensures |r| == |cache| && forall i :: 0 <= i < |r| ==> r[i] == cache[i].key
  {
    seq(|cache|, i requires 0 <= i < |cache| => cache[i].key)
  }

  predicate Holds(cache: seq<Entry>, key: string) {
    exists i :: 0 <= i < |cache| && cache[i].key == key
  }

  predicate HoldsAmong(cache: seq<Entry>, n: nat, key: string)
    requires n <= |cache|
  {
    exists i :: 0 <= i < n && cache[i].key == key
  }

  function SlotAmong(cache: seq<Entry>, n: nat, key: string): (i: nat)
    requires n <= |cache| && HoldsAmong(cache, n, key)
    ensures i < n && cache[i].key == key
  {
    if cache[n - 1].key == key then n - 1 else SlotAmong(cache, n - 1, key)
  }

  /** Where the entry of a key is. */
  function Slot(cache: seq<Entry>, key: string): (i: nat)
    requires Holds(cache, key)
    ensures i < |cache| && cache[i].key == key
  {
    SlotAmong(cache, |cache|, key)
  }

  /** The key this call is remembered under: an empty one counts as none. */
  predicate Keyed(req: Request) {
    req.key.Some? && req.key.value != ""
  }

  predicate Replays(cfg: Config, m: Service, req: Request) {
    && Keyed(req) && Holds(m.cache, req.key.value)
    && req.now - m.cache[Slot(m.cache, req.key.value)].at < cfg.ttl
  }

  /** The cache without the entry of that key, if it has one. */
  function Forget(cache: seq<Entry>, key: string): seq<Entry> {
    if Holds(cache, key) then Cut(cache, Slot(cache, key)) else cache
  }

  function IngestFresh(cfg: Config, m: Service, req: Request): (Service, Response) {
    var response := Answer(cfg, m.chain, req.events, req.now);
    var chain := ChainAfter(cfg, m.chain, req.events, req.now, |req.events|);
    if !Keyed(req) then (Service(chain, m.cache), response)
    else
      var key := req.key.value;
      (Service(chain, LastN(Forget(m.cache, key) + [Entry(key, response, req.now)], IDEMPOTENCY_CACHE_LIMIT)), response)
  }

  function Ingest(cfg: Config, m: Service, req: Request): (Service, Result<Response, HttpError>) {
    var gate := Gate(req);
    if gate.Some? then (m, Err(HttpError(gate.value)))
    else if Replays(cfg, m, req) then
      var entry := m.cache[Slot(m.cache, req.key.value)];
      (m.(cache := Forget(m.cache, entry.key) + [entry]), Ok(entry.response))
    else
      var (m', response) := IngestFresh(cfg, m, req);
      (m', Ok(response))
  }

  /** `None` stands for a call of `reset`. */
  function Serve(cfg: Config, m: Service, call: Option<Request>): Service {
    if call.None? then Service("", []) else Ingest(cfg, m, call.value).0
  }

  function Run(cfg: Config, m: Service, calls: seq<Option<Request>>): Service
    decreases |calls|
  {
    if calls == [] then m else Serve(cfg, Run(cfg, m, calls[..|calls| - 1]), calls[|calls| - 1])
  }
}
