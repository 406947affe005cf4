/**
 The lots of a simulated supply chain: where each one is, what has been told about it, and
 the moves of `LegitFlowEngine` between seven pools and a transit list.
 */
module Flow {
  import opened Common
  import opened Records
  import opened Scenarios

  datatype Stage = Harvested | Cooled | Packed | InProcessor | Transformed | InDc | InRetail

  /** Quantities are cents of a unit. `serial`, `stampedAt` and `ancestors` are history: the
      lot counter and the cursor its code was made from, and the lots its parents name. */
  class Lot {
    const code: string
    const quantity: int
    const parents: seq<string>
    var stage: Stage
    var location: string
    ghost const serial: nat
    ghost const stampedAt: int
    ghost const ancestors: seq<Lot>

    constructor (code: string, quantity: int, parents: seq<string>, stage: Stage, location: string,
                 ghost serial: nat, ghost stampedAt: int, ghost ancestors: seq<Lot>)
      ensures this.code == code && this.quantity == quantity && this.parents == parents
      ensures this.stage == stage && this.location == location
      ensures this.serial == serial && this.stampedAt == stampedAt && this.ancestors == ancestors
    {
      this.code, this.quantity, this.parents := code, quantity, parents;
      this.stage, this.location := stage, location;
      this.serial, this.stampedAt, this.ancestors := serial, stampedAt, ancestors;
    }
  }

  datatype Shipment = Shipment(lot: Lot, origin: string, destination: string, next: Stage)

  datatype Pools = Pools(
    harvested: seq<Lot>,
    cooled: seq<Lot>,
    packed: seq<Lot>,
    processor: seq<Lot>,
    transformed: seq<Lot>,
    dc: seq<Lot>,
    retail: seq<Lot>,
    transit: seq<Shipment>,
    consumed: seq<Lot>)     // history: the lots no longer anywhere

  /** One event: its kind, the lot it is about and the lots it names as parents. */
  datatype Told = Told(cte: Cte, lot: Lot, named: seq<Lot>, at: int)

  /** `told` are the events so far, of which the last `queued` wait to be handed out. */
  datatype FlowState = FlowState(pools: Pools, minted: seq<Lot>, told: seq<Told>, queued: nat, cursor: int)

  datatype Draw =
    | Flush
    | Harvest(lot: Lot, at: int)
    | Cool(i: nat, at: int)
    | Pack(i: nat, lot: Lot, at: int)
    | Ship(from: Stage, i: nat, next: Stage, origin: string, destination: string, at: int)
    | Receive(i: nat, at: int)
    | Transform(inputs: seq<Lot>, outputs: seq<Lot>, rework: seq<Lot>, gross: int, spare: int, at: int)

  // ------------------------------------------------------------------ pools

  function PoolOf(p: Pools, s: Stage): seq<Lot> {
    match s
    case Harvested => p.harvested
    case Cooled => p.cooled
    case Packed => p.packed
    case InProcessor => p.processor
    case Transformed => p.transformed
    case InDc => p.dc
    case InRetail => p.retail
  }

  function WithPool(p: Pools, s: Stage, lots: seq<Lot>): (q: Pools)
    ensures PoolOf(q, s) == lots && q.transit == p.transit && q.consumed == p.consumed
    ensures forall t :: t != s ==> PoolOf(q, t) == PoolOf(p, t)
  {
    match s
    case Harvested => p.(harvested := lots)
    case Cooled => p.(cooled := lots)
    case Packed => p.(packed := lots)
    case InProcessor => p.(processor := lots)
    case Transformed => p.(transformed := lots)
    case InDc => p.(dc := lots)
    case InRetail => p.(retail := lots)
  }

  function Lots(transit: seq<Shipment>): (r: seq<Lot>)
    ensures |r| == |transit| && forall i :: 0 <= i < |r| ==> r[i] == transit[i].lot
  {
    seq(|transit|, i requires 0 <= i < |transit| => transit[i].lot)
  }

  /** The lots that are not among `gone`, in order. */
  function Minus(s: seq<Lot>, gone: seq<Lot>): seq<Lot> {
    if s == [] then []
    else Minus(s[..|s| - 1], gone) + if s[|s| - 1] in gone then [] else [s[|s| - 1]]
  }

  /** Every lot in its place, however often it is there. */
  ghost function Everything(p: Pools): multiset<Lot> {
    multiset(p.harvested) + multiset(p.cooled) + multiset(p.packed) + multiset(p.processor)
    + multiset(p.transformed) + multiset(p.dc) + multiset(p.retail)
    + multiset(Lots(p.transit)) + multiset(p.consumed)
  }

  /** The sites a stage's lots stand at. */
  function Tier(s: Preset, stage: Stage): seq<Site> {
    match stage
    case Harvested => if s.industry.Seafood? then s.coolers else s.farms
    case Cooled => s.coolers
    case Packed => s.packers
    case InProcessor => s.processors
    case Transformed => s.processors
    case InDc => s.dcs
    case InRetail => s.retailers
  }

  predicate SiteNamed(sites: seq<Site>, name: string) {
    exists i :: 0 <= i < |sites| && sites[i].name == name
  }

  predicate StandsAt(s: Preset, stage: Stage, location: string) {
    SiteNamed(Tier(s, stage), location)
  }

  /** A shipment is bound for a site of the tier it says. */
  predicate Fits(s: Preset, shipment: Shipment) {
    && (shipment.next == InProcessor || shipment.next == InDc || shipment.next == InRetail)
    && StandsAt(s, shipment.next, shipment.destination)
  }

  ghost predicate ShipmentsFit(s: Preset, transit: seq<Shipment>) {
    forall i :: 0 <= i < |transit| ==> Fits(s, transit[i])
  }

  /** The pool the initial packing draws from. */
  function PackingPool(s: Preset): Stage {
    if s.requiresCooling then Cooled else Harvested
  }

  function Pop(p: Pools, s: Stage, i: nat): Pools
    requires i < |PoolOf(p, s)|
  {
    WithPool(p, s, Cut(PoolOf(p, s), i))
  }

  function Add(p: Pools, s: Stage, lots: seq<Lot>): Pools {
    WithPool(p, s, PoolOf(p, s) + lots)
  }

  // ------------------------------------------------------------------ quantities

  function Total(lots: seq<Lot>): int {
    if lots == [] then 0 else Total(lots[..|lots| - 1]) + lots[|lots| - 1].quantity
  }

  /** `q` is some number between `low` and `high` percent of `whole`, rounded to a cent. */
  predicate Percent(whole: int, low: int, high: int, q: int) {
    low * whole - 50 <= 100 * q <= high * whole + 50
  }

  function Sellable(gross: int, spare: int): int {
    if gross - spare < 100 then 100 else gross - spare
  }

  // ------------------------------------------------------------------ the moves

  /** Packed lots go to processors or distribution centres, by the preset's odds. */
  predicate Routes(s: Preset, from: Stage, next: Stage) {
    match from
    case Packed => (next == InProcessor && s.toProcessor > 0) || (next == InDc && s.toProcessor < 100)
    case Transformed => next == InDc
    case InDc => next == InRetail
    case _ => false
  }

  predicate DifferentLots(s: seq<Lot>, i: nat, j: nat)
    requires i < |s| && j < |s|
  {
    s[i] != s[j]
  }

  ghost predicate Distinct(s: seq<Lot>) {
    forall i: nat, j: nat :: i < j < |s| ==> DifferentLots(s, i, j)
  }

  ghost predicate ReadyToTake(s: Preset, p: Pools, d: Draw) {
    match d
    case Flush => true
    case Harvest(_, _) => |p.harvested| < s.harvestTarget
    case Cool(i, _) => s.requiresCooling && i < |p.harvested|
    case Pack(i, _, _) => i < |PoolOf(p, PackingPool(s))|
    case Ship(from, i, next, _, _, _) =>
      i < |PoolOf(p, from)| && Routes(s, from, next)
    case Receive(i, _) => i < |p.transit|
    case Transform(inputs, _, _, _, _, _) =>
      inputs != [] && Distinct(inputs) && forall k :: 0 <= k < |inputs| ==> inputs[k] in p.processor
  }

  /** A transformation takes one of the preset's numbers of lots, or all there are. */
  predicate SampleSize(s: Preset, available: nat, n: nat) {
    exists k :: 0 <= k < |s.inputChoices| && n == Min(available, s.inputChoices[k])
  }

  /** At least the smallest of the preset's numbers of lots is there. */
  predicate EnoughToTransform(s: Preset, available: nat) {
    exists k :: 0 <= k < |s.inputChoices| && s.inputChoices[k] <= available
  }

  function OutputLimit(s: Preset): nat {
    if s.industry.Produce? || s.industry.Seafood? then 3 else 2
  }

  datatype Kind = ToHarvest | ToCool | ToPack | ToShip | ToReceive | ToTransform

  /** How often an action is in the list it is drawn from. */
  function WeightOf(s: Preset, p: Pools, k: Kind): nat {
    match k
    case ToHarvest => if |p.harvested| < s.harvestTarget then s.weights.harvest else 0
    case ToCool => if s.requiresCooling && p.harvested != [] then s.weights.cool else 0
    case ToPack => if PoolOf(p, PackingPool(s)) != [] then s.weights.pack else 0
    case ToShip => if p.packed != [] || p.transformed != [] || p.dc != [] then s.weights.ship else 0
    case ToReceive => if p.transit != [] then s.weights.receive else 0
    case ToTransform => if EnoughToTransform(s, |p.processor|) then s.weights.transform else 0
  }

  function KindOf(d: Draw): Kind
    requires !d.Flush?
  {
    match d
    case Harvest(_, _) => ToHarvest
    case Cool(_, _) => ToCool
    case Pack(_, _, _) => ToPack
    case Ship(_, _, _, _, _, _) => ToShip
    case Receive(_, _) => ToReceive
    case Transform(_, _, _, _, _, _) => ToTransform
  }

  /** Where a received lot goes: to retail unless its shipment says otherwise. */
  function Destination(next: Stage): Stage {
    if next == InProcessor || next == InDc then next else InRetail
  }

  /** The pools after a move. */
  ghost function Moved(s: Preset, p: Pools, d: Draw): Pools
    requires ReadyToTake(s, p, d)
  {
    match d
    case Flush => p
    case Harvest(lot, _) => Add(p, Harvested, [lot])
    case Cool(i, _) => Add(Pop(p, Harvested, i), Cooled, [p.harvested[i]])
    case Pack(i, lot, _) =>
      var used := PoolOf(p, PackingPool(s))[i];
      var q := Add(Pop(p, PackingPool(s), i), Packed, [lot]);
      q.(consumed := q.consumed + [used])
    case Ship(from, i, next, origin, destination, _) =>
      var q := Pop(p, from, i);
      q.(transit := q.transit + [Shipment(PoolOf(p, from)[i], origin, destination, next)])
    case Receive(i, _) =>
      var q := p.(transit := Cut(p.transit, i));
      Add(q, Destination(p.transit[i].next), [p.transit[i].lot])
    case Transform(inputs, outputs, rework, _, _, _) =>
      var q := Add(WithPool(p, InProcessor, Minus(p.processor, inputs) + rework), Transformed, outputs);
      q.(consumed := q.consumed + inputs)
  }

  /** The lots a move makes. */
  function Born(d: Draw): seq<Lot> {
    match d
    case Harvest(lot, _) => [lot]
    case Pack(_, lot, _) => [lot]
    case Transform(_, outputs, rework, _, _, _) => outputs + rework
    case _ => []
  }

  /** A shipped lot's events name its parents, or the lot itself if it has none. */
  ghost function Named(lot: Lot): seq<Lot> {
    if lot.ancestors == [] then [lot] else lot.ancestors
  }

  ghost function TellEach(lots: seq<Lot>, inputs: seq<Lot>, at: int): (r: seq<Told>)
    ensures |r| == |lots| && forall k :: 0 <= k < |r| ==> r[k] == Told(Transformation, lots[k], inputs, at + k)
  {
    seq(|lots|, k requires 0 <= k < |lots| => Told(Transformation, lots[k], inputs, at + k))
  }

  /** The events a move makes: the one handed out at once, then those it queues. */
  ghost function News(s: Preset, p: Pools, d: Draw): seq<Told>
    requires ReadyToTake(s, p, d)
  {
    match d
    case Flush => []
    case Harvest(lot, at) => [Told(s.sourceCte, lot, [], at)]
    case Cool(i, at) => [Told(Cooling, p.harvested[i], [p.harvested[i]], at)]
    case Pack(i, lot, at) => [Told(InitialPacking, lot, [PoolOf(p, PackingPool(s))[i]], at)]
    case Ship(from, i, _, _, _, at) => [Told(Shipping, PoolOf(p, from)[i], Named(PoolOf(p, from)[i]), at)]
    case Receive(i, at) => [Told(Receiving, p.transit[i].lot, Named(p.transit[i].lot), at)]
    case Transform(inputs, outputs, rework, _, _, at) => TellEach(outputs + rework, inputs, at)
  }

  ghost function After(s: Preset, f: FlowState, d: Draw): FlowState
    requires ReadyToTake(s, f.pools, d)
  {
    var news := News(s, f.pools, d);
    if d.Flush? then f.(queued := if f.queued == 0 then 0 else f.queued - 1)
    else
      FlowState(Moved(s, f.pools, d), f.minted + Born(d), f.told + news,
           if news == [] then 0 else |news| - 1, if news == [] then f.cursor else news[|news| - 1].at)
  }

  // ------------------------------------------------------------------ what is kept

  /** Lot codes are made from the cursor and the lot counter, and never repeat a counter's. */
  ghost predicate CodesDiffer(codes: (int, nat) -> string) {
    forall t, u, m, n :: codes(t, m) == codes(u, n) ==> m == n
  }

  ghost predicate Minted(minted: seq<Lot>, lot: Lot) {
    1 <= lot.serial <= |minted| && minted[lot.serial - 1] == lot
  }

  ghost predicate Recorded(told: seq<Told>, n: nat, lot: Lot)
    requires n <= |told|
  {
    exists j :: 0 <= j < n && told[j].lot == lot
  }

  ghost function Codes(lots: seq<Lot>): (r: seq<string>)
    ensures |r| == |lots| && forall i :: 0 <= i < |r| ==> r[i] == lots[i].code
  {
    seq(|lots|, i requires 0 <= i < |lots| => lots[i].code)
  }

  ghost predicate Older(minted: seq<Lot>, a: Lot, lot: Lot) {
    Minted(minted, a) && a.serial < lot.serial
  }

  /** A lot made in turn, with a positive quantity, from lots made before it. */
  ghost predicate SoundLot(codes: (int, nat) -> string, minted: seq<Lot>, i: nat)
    requires i < |minted|
  {
    var lot := minted[i];
    && lot.serial == i + 1
    && lot.code == codes(lot.stampedAt, lot.serial)
    && lot.quantity >= 1
    && lot.parents == Codes(lot.ancestors)
    && forall k :: 0 <= k < |lot.ancestors| ==> Older(minted, lot.ancestors[k], lot)
  }

  /** An event is about a lot that was made and names it, or older lots that were told of before. */
  ghost predicate SoundTold(minted: seq<Lot>, told: seq<Told>, j: nat)
    requires j < |told|
  {
    && Minted(minted, told[j].lot)
    && forall k :: 0 <= k < |told[j].named| ==>
         told[j].named[k] == told[j].lot
         || (Older(minted, told[j].named[k], told[j].lot) && Recorded(told, j, told[j].named[k]))
  }

  ghost predicate InOrder(told: seq<Told>, i: nat, j: nat)
    requires i < |told| && j < |told|
  {
    told[i].at < told[j].at
  }

  ghost predicate LotsSound(codes: (int, nat) -> string, minted: seq<Lot>) {
    forall i: nat :: i < |minted| ==> SoundLot(codes, minted, i)
  }

  ghost predicate ToldSound(minted: seq<Lot>, told: seq<Told>) {
    forall j: nat :: j < |told| ==> SoundTold(minted, told, j)
  }

  ghost predicate AllRecorded(minted: seq<Lot>, told: seq<Told>) {
    forall i: nat :: i < |minted| ==> Recorded(told, |told|, minted[i])
  }

  ghost predicate TimesIncrease(told: seq<Told>, cursor: int) {
    && (forall i: nat, j: nat :: i < j < |told| ==> InOrder(told, i, j))
    && (forall j: nat :: j < |told| ==> told[j].at <= cursor)
  }

  ghost predicate Good(s: Preset, codes: (int, nat) -> string, f: FlowState) {
    && Everything(f.pools) == multiset(f.minted)
    && LotsSound(codes, f.minted)
    && ToldSound(f.minted, f.told)
    && AllRecorded(f.minted, f.told)
    && TimesIncrease(f.told, f.cursor)
    && |f.pools.harvested| <= s.harvestTarget
    && ShipmentsFit(s, f.pools.transit)
    && f.queued <= |f.told|
  }

  /** The lots a move makes continue the counter, and are of the right make. */
  ghost predicate Makes(codes: (int, nat) -> string, minted: seq<Lot>, lots: seq<Lot>) {
    forall k :: 0 <= k < |lots| ==>
      && lots[k].serial == |minted| + k + 1
      && lots[k].code == codes(lots[k].stampedAt, lots[k].serial)
      && lots[k].parents == Codes(lots[k].ancestors)
  }

  /** What each move draws: new lots, their parents and their quantities. */
  ghost predicate Drawn(s: Preset, scale: Scale, p: Pools, d: Draw)
    requires ReadyToTake(s, p, d)
  {
    match d
    case Harvest(lot, _) => lot.ancestors == [] && LowCents(s, scale) <= lot.quantity <= HighCents(s, scale)
    case Pack(i, lot, _) =>
      lot.ancestors == [PoolOf(p, PackingPool(s))[i]] && Percent(PoolOf(p, PackingPool(s))[i].quantity, 92, 102, lot.quantity)
    case Ship(_, _, next, _, destination, _) => StandsAt(s, next, destination)
    case Transform(inputs, outputs, rework, gross, spare, _) =>
      && SampleSize(s, |p.processor|, |inputs|)
      && outputs != [] && |outputs| <= OutputLimit(s)
      && (forall k :: 0 <= k < |outputs| ==> outputs[k].ancestors == inputs && outputs[k].quantity >= 1)
      && Percent(Total(inputs), 78, 91, gross)
      && (spare == 0 || (|inputs| > 1 && Percent(gross, 6, 14, spare)))
      && Total(outputs) == Sellable(gross, spare)
      && (if spare > 0 then |rework| == 1 && rework[0].ancestors == [outputs[0]] && rework[0].quantity == spare
          else rework == [])
    case _ => true
  }

  ghost predicate Allowed(s: Preset, scale: Scale, codes: (int, nat) -> string, f: FlowState, d: Draw) {
    && ReadyToTake(s, f.pools, d)
    && (if d.Flush? then f.queued > 0
        else f.queued == 0 && WeightOf(s, f.pools, KindOf(d)) > 0 && Makes(codes, f.minted, Born(d))
             && Drawn(s, scale, f.pools, d) && f.cursor < d.at)
  }
}
