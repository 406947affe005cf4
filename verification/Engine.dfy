/**
 `LegitFlowEngine`: the object whose actions pop lots from pools, change them in place and
 append them elsewhere, proved to make the moves of Flow.
 */
module Engine {
  import opened Common
  import opened Records
  import opened Scenarios
  import opened Flow
  import opened FlowRuns
  import Quantities

  const MINUTE: int := 60 * 1000000

  /** An event as it is handed out, with its parent lot codes. */
  datatype Emission = Emission(
    cte: Cte,
    lot: string,
    quantity: int,
    timestamp: int,
    location: string,
    parents: seq<string>,
    source: Option<string>,     // the source lot KDE of a packing event
    inputs: seq<string>)        // the input lots of a transformation event

  /** The emission tells of that lot, at that time, and names exactly those parents; a
      packing event also says which lot was packed, a transformation which went in. */
  ghost predicate Tells(e: Emission, t: Told) {
    && e.cte == t.cte && e.lot == t.lot.code && e.quantity == t.lot.quantity && e.timestamp == t.at
    && e.parents == Codes(t.named)
    && e.source == (if t.cte == InitialPacking && e.parents != [] then Some(e.parents[0]) else None)
    && e.inputs == (if t.cte == Transformation then e.parents else [])
  }

  /** From one state to the next the emission is of the first event not handed out before. */
  ghost predicate Handed(before: FlowState, after: FlowState, e: Emission) {
    && before.queued <= |before.told| < |after.told| + before.queued
    && Tells(e, after.told[|before.told| - before.queued])
  }

  ghost predicate AllTell(pending: seq<Emission>, told: seq<Told>) {
    |pending| <= |told| && forall k :: 0 <= k < |pending| ==> Tells(pending[k], told[|told| - |pending| + k])
  }

  function Repeat(k: Kind, n: nat): (r: seq<Kind>)
    ensures |r| == n && forall i :: 0 <= i < n ==> r[i] == k
  {
    seq(n, i => k)
  }

  function CodesOf(lots: seq<Lot>): (r: seq<string>)
    ensures r == Codes(lots)
  {
    seq(|lots|, i requires 0 <= i < |lots| => lots[i].code)
  }

  /** Equality as the program sees it: field by field. */
  predicate SameValue(a: Lot, b: Lot)
    reads a, b
  {
    a.code == b.code && a.quantity == b.quantity && a.parents == b.parents && a.stage == b.stage && a.location == b.location
  }

  /** The inventory without the lots that equal an input field by field: that takes out
      exactly the inputs because no two lots share a code. */
  method RemoveByValue(inventory: seq<Lot>, inputs: seq<Lot>) returns (rest: seq<Lot>)
    requires forall i, k ::
      0 <= i < |inventory| && 0 <= k < |inputs| && inventory[i].code == inputs[k].code ==> inventory[i] == inputs[k]
    ensures rest == Minus(inventory, inputs)
  {
    rest := [];
    for i := 0 to |inventory|
      invariant rest == Minus(inventory[..i], inputs)
    {
      var found := false;
      for k := 0 to |inputs|
        invariant found <==> inventory[i] in inputs[..k]
      {
        if SameValue(inventory[i], inputs[k]) {
          found := true;
        }
      }
      assert inputs[..|inputs|] == inputs;
      assert inventory[..i + 1][..i] == inventory[..i];
      if !found {
        rest := rest + [inventory[i]];
      }
    }
    assert inventory[..|inventory|] == inventory;
  }

  lemma PickOne(picked: seq<Lot>, rest: seq<Lot>, i: nat)
    requires Distinct(picked) && Distinct(rest) && i < |rest|
    requires forall j :: 0 <= j < |rest| ==> rest[j] !in picked
    ensures Distinct(picked + [rest[i]]) && Distinct(Cut(rest, i))
    ensures forall j :: 0 <= j < |Cut(rest, i)| ==> Cut(rest, i)[j] !in picked + [rest[i]]
    ensures forall j :: 0 <= j < |Cut(rest, i)| ==> Cut(rest, i)[j] in rest
  {
    var p := picked + [rest[i]];
    var c := Cut(rest, i);
    forall a: nat, b: nat | a < b < |p| ensures DifferentLots(p, a, b) {
      if b < |picked| { assert DifferentLots(picked, a, b); }
    }
    forall a: nat, b: nat | a < b < |c| ensures DifferentLots(c, a, b) {
      assert DifferentLots(rest, if a < i then a else a + 1, if b < i then b else b + 1);
    }
    forall j: nat | j < |c| ensures c[j] !in p && c[j] in rest {
      assert if j < i then DifferentLots(rest, j, i) else DifferentLots(rest, i, j + 1);
      assert c[j] == rest[if j < i then j else j + 1];
    }
  }

  /** A sample without replacement: that many members at different places. */
  method Sample(pool: seq<Lot>, n: nat) returns (picked: seq<Lot>)
    requires n <= |pool| && Distinct(pool)
    ensures |picked| == n && Distinct(picked) && forall k :: 0 <= k < n ==> picked[k] in pool
  {
    var rest := pool;
    picked := [];
    for k := 0 to n
      invariant |picked| == k && |rest| == |pool| - k
      invariant Distinct(picked) && Distinct(rest)
      invariant forall j :: 0 <= j < |rest| ==> rest[j] in pool && rest[j] !in picked
      invariant forall j :: 0 <= j < k ==> picked[j] in pool
    {
      var i: nat :| i < |rest|;
      PickOne(picked, rest, i);
      picked, rest := picked + [rest[i]], Cut(rest, i);
    }
  }

  /** The events waiting tell of all the news but the first. */
  ghost predicate RestTold(pending: seq<Emission>, news: seq<Told>) {
    |pending| + 1 == |news| && forall k :: 0 <= k < |pending| ==> Tells(pending[k], news[k + 1])
  }

  /** These events tell of those lots, made from the inputs, one step of the clock apart. */
  ghost predicate Waiting(events: seq<Emission>, lots: seq<Lot>, inputs: seq<Lot>, at: int) {
    |events| == |lots| && forall k :: 0 <= k < |events| ==> Tells(events[k], Told(Transformation, lots[k], inputs, at + k))
  }

  lemma BothWait(first: seq<Emission>, second: seq<Emission>, inputs: seq<Lot>, outputs: seq<Lot>, rework: seq<Lot>, at: int)
    requires outputs != [] && Waiting(first, outputs[1..], inputs, at + 1) && Waiting(second, rework, inputs, at + |outputs|)
    ensures RestTold(first + second, TellEach(outputs + rework, inputs, at))
  {
    hide Tells;
    var news := TellEach(outputs + rework, inputs, at);
    forall k | 0 <= k < |first + second| ensures Tells((first + second)[k], news[k + 1]) {
      if k < |first| {
        assert news[k + 1] == Told(Transformation, outputs[1..][k], inputs, at + 1 + k);
      } else {
        assert news[k + 1] == Told(Transformation, rework[k - |first|], inputs, at + |outputs| + (k - |first|));
      }
    }
  }

  lemma RestIsTold(pending: seq<Emission>, told: seq<Told>, news: seq<Told>)
    requires RestTold(pending, news)
    ensures AllTell(pending, told + news) && |pending| == |news| - 1
  {
    hide Tells;
    forall k | 0 <= k < |pending| ensures Tells(pending[k], (told + news)[|told + news| - |pending| + k]) {
      assert (told + news)[|told + news| - |pending| + k] == news[k + 1];
    }
  }

  lemma TransformTells(e: Emission, lot: Lot, inputs: seq<Lot>)
    requires e.cte == Transformation && e.lot == lot.code && e.quantity == lot.quantity
    requires e.parents == Codes(inputs) && e.inputs == e.parents && e.source.None?
    ensures Tells(e, Told(Transformation, lot, inputs, e.timestamp))
  {}

  /** Lots minted one after another from the same inputs. */
  ghost predicate MadeFrom(codes: (int, nat) -> string, first: nat, inputs: seq<Lot>, lots: seq<Lot>) {
    forall k :: 0 <= k < |lots| ==>
      && lots[k].serial == first + k && lots[k].code == codes(lots[k].stampedAt, lots[k].serial)
      && lots[k].ancestors == inputs && lots[k].parents == Codes(inputs)
  }

  ghost predicate Reworked(codes: (int, nat) -> string, serial: nat, first: Lot, spare: int, rework: seq<Lot>) {
    if spare > 0 then
      && |rework| == 1 && rework[0].serial == serial && rework[0].code == codes(rework[0].stampedAt, serial)
      && rework[0].quantity == spare && rework[0].ancestors == [first] && rework[0].parents == [first.code]
    else rework == []
  }

  /** What a transformation puts out. */
  ghost predicate Yields(s: Preset, codes: (int, nat) -> string, made: nat, available: nat, inputs: seq<Lot>,
                         outputs: seq<Lot>, rework: seq<Lot>, gross: int, spare: int)
  {
    && SampleSize(s, available, |inputs|)
    && 1 <= |outputs| <= OutputLimit(s)
    && MadeFrom(codes, made + 1, inputs, outputs)
    && Reworked(codes, made + 1 + |outputs|, outputs[0], spare, rework)
    && (forall k :: 0 <= k < |outputs| ==> outputs[k].quantity >= 1)
    && Total(outputs) == Sellable(gross, spare)
    && Percent(Total(inputs), 78, 91, gross)
    && (spare == 0 || (|inputs| > 1 && Percent(gross, 6, 14, spare))) && spare >= 0
  }

  lemma YieldsSome(s: Preset, codes: (int, nat) -> string, made: nat, available: nat, inputs: seq<Lot>,
                   outputs: seq<Lot>, rework: seq<Lot>, gross: int, spare: int)
    requires Yields(s, codes, made, available, inputs, outputs, rework, gross, spare)
    ensures outputs != []
  {}

  /** The pools after a transformation. */
  ghost function Made(p: Pools, inputs: seq<Lot>, outputs: seq<Lot>, rework: seq<Lot>): Pools {
    var q := Add(WithPool(p, InProcessor, Minus(p.processor, inputs) + rework), Stage.Transformed, outputs);
    q.(consumed := q.consumed + inputs)
  }

  /** The state after a transformation. */
  ghost function Transforming(f: FlowState, d: Draw): FlowState
    requires d.Transform? && d.outputs != []
  {
    var news := TellEach(d.outputs + d.rework, d.inputs, d.at);
    FlowState(Made(f.pools, d.inputs, d.outputs, d.rework), f.minted + (d.outputs + d.rework),
              f.told + news, |news| - 1, news[|news| - 1].at)
  }

  lemma TransformMoves(s: Preset, scale: Scale, codes: (int, nat) -> string, f: FlowState, d: Draw)
    requires f.queued == 0 && WeightOf(s, f.pools, ToTransform) > 0 && d.Transform? && f.cursor < d.at
    requires d.inputs != [] && Distinct(d.inputs) && forall k :: 0 <= k < |d.inputs| ==> d.inputs[k] in f.pools.processor
    requires Yields(s, codes, |f.minted|, |f.pools.processor|, d.inputs, d.outputs, d.rework, d.gross, d.spare)
    ensures Allowed(s, scale, codes, f, d)
    ensures After(s, f, d) == Transforming(f, d)
  {
    hide Add, WithPool, Minus, Distinct, Total, Percent, SampleSize, Sellable;
    var lots := d.outputs + d.rework;
    forall k | 0 <= k < |lots|
      ensures lots[k].serial == |f.minted| + k + 1 && lots[k].code == codes(lots[k].stampedAt, lots[k].serial)
      ensures lots[k].parents == Codes(lots[k].ancestors)
    {
      assert Codes([d.outputs[0]]) == [d.outputs[0].code];
    }
  }

  lemma MadeEitherWay(p: Pools, inputs: seq<Lot>, outputs: seq<Lot>, rework: seq<Lot>)
    ensures var q := WithPool(p, InProcessor, Minus(p.processor, inputs));
      var r := Add(Add(q, InProcessor, rework), Stage.Transformed, outputs);
      Made(p, inputs, outputs, rework) == r.(consumed := r.consumed + inputs)
  {
    hide Minus;
  }

  lemma {:induction false} TotalIsSum(lots: seq<Lot>, values: seq<int>, n: nat)
    requires n <= |lots| && n <= |values| && forall k :: 0 <= k < n ==> lots[k].quantity == values[k]
    ensures Total(lots[..n]) == Quantities.Sum(values, n)
  {
    if n == 0 {
    } else {
      TotalIsSum(lots, values, n - 1);
      assert lots[..n][..n - 1] == lots[..n - 1];
    }
  }

  lemma {:induction false} TotalIsPositive(lots: seq<Lot>)
    requires forall k :: 0 <= k < |lots| ==> lots[k].quantity >= 1
    ensures Total(lots) >= 0
  {
    if lots == [] {
    } else {
      TotalIsPositive(lots[..|lots| - 1]);
    }
  }

  lemma PooledIsPositive(s: Preset, codes: (int, nat) -> string, f: FlowState, stage: Stage, i: nat)
    requires Good(s, codes, f) && i < |PoolOf(f.pools, stage)|
    ensures PoolOf(f.pools, stage)[i].quantity >= 1
  {
    hide Everything;
    PoolIsSound(s, codes, f, stage);
    var lot := PoolOf(f.pools, stage)[i];
    SerialAt(codes, f.minted, lot.serial - 1);
  }

  lemma InputsArePositive(s: Preset, codes: (int, nat) -> string, f: FlowState, inputs: seq<Lot>)
    requires Good(s, codes, f) && forall k :: 0 <= k < |inputs| ==> inputs[k] in f.pools.processor
    ensures Total(inputs) >= 0
  {
    hide Good, Total;
    forall k | 0 <= k < |inputs| ensures inputs[k].quantity >= 1 {
      var i: nat :| i < |f.pools.processor| && f.pools.processor[i] == inputs[k];
      PooledIsPositive(s, codes, f, InProcessor, i);
    }
    TotalIsPositive(inputs);
  }

  lemma AddNothing(p: Pools, s: Stage)
    ensures Add(p, s, []) == p
  {
    assert PoolOf(p, s) + [] == PoolOf(p, s);
  }

  lemma AddTwice(p: Pools, s: Stage, lots: seq<Lot>, lot: Lot)
    ensures Add(Add(p, s, lots), s, [lot]) == Add(p, s, lots + [lot])
  {
    assert PoolOf(p, s) + lots + [lot] == PoolOf(p, s) + (lots + [lot]);
  }

  lemma {:induction false} MinusIsPart(s: seq<Lot>, gone: seq<Lot>)
    ensures forall i :: 0 <= i < |Minus(s, gone)| ==> Minus(s, gone)[i] in s
  {
    if s == [] {
    } else {
      MinusIsPart(s[..|s| - 1], gone);
    }
  }

  lemma SameCodeSameLot(s: Preset, codes: (int, nat) -> string, f: FlowState, a: Lot, b: Lot)
    requires Good(s, codes, f) && CodesDiffer(codes) && a in f.pools.processor && b in f.pools.processor && a.code == b.code
    ensures a == b
  {
    hide Everything;
    PoolIsSound(s, codes, f, InProcessor);
    assert SoundLot(codes, f.minted, a.serial - 1) && SoundLot(codes, f.minted, b.serial - 1);
  }

  lemma NamesParents(codes: (int, nat) -> string, minted: seq<Lot>, lot: Lot)
    requires LotsSound(codes, minted) && Minted(minted, lot)
    ensures Codes(Named(lot)) == if lot.parents == [] then [lot.code] else lot.parents
  {
    assert SoundLot(codes, minted, lot.serial - 1);
  }

  lemma PooledNames(s: Preset, codes: (int, nat) -> string, f: FlowState, stage: Stage, i: nat)
    requires Good(s, codes, f) && i < |PoolOf(f.pools, stage)|
    ensures var lot := PoolOf(f.pools, stage)[i];
      Codes(Named(lot)) == if lot.parents == [] then [lot.code] else lot.parents
  {
    hide Everything, PoolOf, Minted;
    PoolIsSound(s, codes, f, stage);
    NamesParents(codes, f.minted, PoolOf(f.pools, stage)[i]);
  }

  lemma InTransitNames(s: Preset, codes: (int, nat) -> string, f: FlowState, i: nat)
    requires Good(s, codes, f) && i < |f.pools.transit|
    ensures var lot := f.pools.transit[i].lot;
      Codes(Named(lot)) == if lot.parents == [] then [lot.code] else lot.parents
  {
    hide Everything, Minted;
    TransitIsSound(s, codes, f, i);
    NamesParents(codes, f.minted, f.pools.transit[i].lot);
  }

  lemma ShipMoves(s: Preset, scale: Scale, codes: (int, nat) -> string, f: FlowState, from: Stage, i: nat,
                  next: Stage, origin: string, destination: string, at: int)
    requires f.queued == 0 && WeightOf(s, f.pools, ToShip) > 0 && f.cursor < at
    requires i < |PoolOf(f.pools, from)| && Routes(s, from, next) && StandsAt(s, next, destination)
    ensures Allowed(s, scale, codes, f, Draw.Ship(from, i, next, origin, destination, at))
    ensures var lot := PoolOf(f.pools, from)[i];
      var p := Pop(f.pools, from, i);
      After(s, f, Draw.Ship(from, i, next, origin, destination, at))
      == FlowState(p.(transit := p.transit + [Shipment(lot, origin, destination, next)]),
                   f.minted, f.told + [Told(Shipping, lot, Named(lot), at)], 0, at)
  {
    hide Pop, PoolOf, Named, StandsAt;
    assert f.minted + [] == f.minted;
  }

  lemma ReceiveMoves(s: Preset, scale: Scale, codes: (int, nat) -> string, f: FlowState, i: nat, at: int)
    requires f.queued == 0 && WeightOf(s, f.pools, ToReceive) > 0 && f.cursor < at && i < |f.pools.transit|
    ensures Allowed(s, scale, codes, f, Draw.Receive(i, at))
    ensures var lot := f.pools.transit[i].lot;
      var p := f.pools.(transit := Cut(f.pools.transit, i));
      After(s, f, Draw.Receive(i, at))
      == FlowState(Add(p, Destination(f.pools.transit[i].next), [lot]), f.minted, f.told + [Told(Receiving, lot, Named(lot), at)], 0, at)
  {
    hide Add, Cut, Named;
    assert f.minted + [] == f.minted;
  }

  lemma ShipmentFits(s: Preset, codes: (int, nat) -> string, f: FlowState, i: nat)
    requires Good(s, codes, f) && i < |f.pools.transit|
    ensures var shipment := f.pools.transit[i];
      && (shipment.next == InProcessor || shipment.next == InDc || shipment.next == InRetail)
      && Destination(shipment.next) == shipment.next && StandsAt(s, shipment.next, shipment.destination)
  {
    hide Everything, LotsSound, ToldSound, AllRecorded, TimesIncrease, StandsAt;
    assert Fits(s, f.pools.transit[i]);
  }

  lemma ReceivedInto(p: Pools, next: Stage, lot: Lot)
    requires next == InProcessor || next == InDc || next == InRetail
    ensures Add(p, Destination(next), [lot])
      == p.(processor := p.processor + (if next == InProcessor then [lot] else []),
            dc := p.dc + (if next == InDc then [lot] else []),
            retail := p.retail + (if next == InRetail then [lot] else []))
  {
    assert p.processor + [] == p.processor && p.dc + [] == p.dc && p.retail + [] == p.retail;
  }

  lemma PoolsAreAllocated(p: Pools)
    ensures forall s: Stage, j: nat :: j < |PoolOf(p, s)| ==> allocated(PoolOf(p, s)[j])
  {}

  lemma CutIsGone(s: seq<Lot>, i: nat)
    requires Distinct(s) && i < |s|
    ensures s[i] !in Cut(s, i)
  {
    forall j | 0 <= j < |Cut(s, i)| ensures Cut(s, i)[j] != s[i] {
      assert if j < i then DifferentLots(s, j, i) else DifferentLots(s, i, j + 1);
    }
  }

  lemma TakenIsAbsent(s: Preset, codes: (int, nat) -> string, f: FlowState, stage: Stage, i: nat)
    requires Good(s, codes, f) && i < |PoolOf(f.pools, stage)|
    ensures forall t :: PoolOf(f.pools, stage)[i] !in PoolOf(Pop(f.pools, stage, i), t)
  {
    hide Good, PoolOf, WithPool;
    var lot := PoolOf(f.pools, stage)[i];
    PoolIsSound(s, codes, f, stage);
    CutIsGone(PoolOf(f.pools, stage), i);
    forall t ensures lot !in PoolOf(Pop(f.pools, stage, i), t) {
      if t != stage {
        OnlyHere(s, codes, f, stage, lot, t);
      }
    }
  }

  lemma CutIsPart(s: seq<Lot>, i: nat)
    requires i < |s|
    ensures forall j :: 0 <= j < |Cut(s, i)| ==> Cut(s, i)[j] in s
  {}

  method PickQuantity(s: Preset, scale: Scale) returns (quantity: int)
    requires WellFormed(s)
    ensures LowCents(s, scale) <= quantity <= HighCents(s, scale)
  {
    ScaleKeepsWellFormed(s, scale);
    quantity :| LowCents(s, scale) <= quantity <= HighCents(s, scale);
  }

  lemma PercentNotNegative(whole: int, low: int, high: int, q: int)
    requires whole >= 0 && low >= 0 && Percent(whole, low, high, q)
    ensures q >= 0
  {
    assert low * whole >= 0;
  }

  lemma PercentExists(whole: int, low: int, high: int)
    requires whole >= 0 && low <= high
    ensures Percent(whole, low, high, (low * whole + 50) / 100)
  {
    assert low * whole <= high * whole;
  }

  /** What each action may draw from, when it has weight. */
  lemma CanDraw(s: Preset, p: Pools)
    requires WellFormed(s)
    ensures (if s.industry.Seafood? then s.coolers else s.farms) != [] && s.packers != []
    ensures WeightOf(s, p, ToHarvest) > 0 ==> |p.harvested| < s.harvestTarget
    ensures WeightOf(s, p, ToCool) > 0 ==> s.requiresCooling && p.harvested != [] && s.coolers != []
    ensures WeightOf(s, p, ToPack) > 0 ==> PoolOf(p, PackingPool(s)) != []
    ensures WeightOf(s, p, ToShip) > 0 ==> p.packed != [] || p.transformed != [] || p.dc != []
    ensures s.dcs != [] && s.retailers != [] && s.carriers != [] && (s.toProcessor > 0 ==> s.processors != [])
    ensures WeightOf(s, p, ToReceive) > 0 ==> p.transit != []
    ensures WeightOf(s, p, ToTransform) > 0 ==> EnoughToTransform(s, |p.processor|) && s.processors != [] && s.outputs != []
  {}

  lemma HarvestMoves(s: Preset, scale: Scale, codes: (int, nat) -> string, f: FlowState, lot: Lot, at: int)
    requires f.queued == 0 && WeightOf(s, f.pools, ToHarvest) > 0 && f.cursor < at
    requires lot.serial == |f.minted| + 1 && lot.code == codes(lot.stampedAt, lot.serial)
    requires lot.ancestors == [] && lot.parents == [] && LowCents(s, scale) <= lot.quantity <= HighCents(s, scale)
    ensures Allowed(s, scale, codes, f, Draw.Harvest(lot, at))
    ensures After(s, f, Draw.Harvest(lot, at))
      == FlowState(Add(f.pools, Harvested, [lot]), f.minted + [lot], f.told + [Told(s.sourceCte, lot, [], at)], 0, at)
  {
    hide LowCents, HighCents, Add;
  }

  lemma CoolMoves(s: Preset, scale: Scale, codes: (int, nat) -> string, f: FlowState, i: nat, at: int)
    requires f.queued == 0 && WeightOf(s, f.pools, ToCool) > 0 && i < |PoolOf(f.pools, Harvested)| && f.cursor < at
    ensures Allowed(s, scale, codes, f, Draw.Cool(i, at))
    ensures var lot := PoolOf(f.pools, Harvested)[i];
      After(s, f, Draw.Cool(i, at))
      == FlowState(Add(Pop(f.pools, Harvested, i), Cooled, [lot]), f.minted, f.told + [Told(Cooling, lot, [lot], at)], 0, at)
  {
    hide Add, Pop;
    assert f.minted + [] == f.minted;
  }

  lemma PackMoves(s: Preset, scale: Scale, codes: (int, nat) -> string, f: FlowState, i: nat, lot: Lot, at: int)
    requires f.queued == 0 && WeightOf(s, f.pools, ToPack) > 0 && f.cursor < at
    requires i < |PoolOf(f.pools, PackingPool(s))|
    requires lot.serial == |f.minted| + 1 && lot.code == codes(lot.stampedAt, lot.serial)
    requires lot.ancestors == [PoolOf(f.pools, PackingPool(s))[i]] && lot.parents == [PoolOf(f.pools, PackingPool(s))[i].code]
    requires Percent(PoolOf(f.pools, PackingPool(s))[i].quantity, 92, 102, lot.quantity)
    ensures Allowed(s, scale, codes, f, Draw.Pack(i, lot, at))
    ensures var used := PoolOf(f.pools, PackingPool(s))[i];
      var p := Add(Pop(f.pools, PackingPool(s), i), Packed, [lot]);
      After(s, f, Draw.Pack(i, lot, at))
      == FlowState(p.(consumed := p.consumed + [used]), f.minted + [lot], f.told + [Told(InitialPacking, lot, [used], at)], 0, at)
  {
    hide Add, Pop, Percent;
  }

  ghost predicate Weighed(s: Preset, p: Pools, weighted: seq<Kind>) {
    forall i :: 0 <= i < |weighted| ==> WeightOf(s, p, weighted[i]) > 0
  }

  lemma NothingWeighed(s: Preset, p: Pools)
    ensures Weighed(s, p, [])
  {}

  lemma WeighedAt(s: Preset, p: Pools, weighted: seq<Kind>, i: nat)
    requires Weighed(s, p, weighted) && i < |weighted|
    ensures WeightOf(s, p, weighted[i]) > 0
  {}

  lemma ScaleKeepsRunnable(p: Preset, scale: Scale)
    requires WellFormed(p)
    ensures WellFormed(Scaled(p, scale))
  {
    hide Scaled;
    ScaleKeepsWellFormed(p, scale);
  }

  /** So many minutes passed, or as many as the ceiling leaves, or one smallest step when it
      leaves none. */
  predicate Waited(before: int, after: int, least: int, most: int, ceiling: int) {
    || (before + least * MINUTE <= after <= before + most * MINUTE && after <= ceiling)
    || (before < after == ceiling < before + most * MINUTE)
    || (ceiling <= before && after == before + 1)
  }

  class LegitFlowEngine {
    const preset: Preset
    const scale: Scale
    const codes: (int, nat) -> string
    var harvested: seq<Lot>
    var cooled: seq<Lot>
    var packed: seq<Lot>
    var processorInventory: seq<Lot>
    var transformed: seq<Lot>
    var dcInventory: seq<Lot>
    var retailInventory: seq<Lot>
    var inTransit: seq<Shipment>
    var pending: seq<Emission>
    var timeCursor: int
    var lotCounter: nat
    ghost var consumed: seq<Lot>
    ghost var minted: seq<Lot>
    ghost var told: seq<Told>

    ghost function Places(): Pools
      reads this
    {
      Pools(harvested, cooled, packed, processorInventory, transformed, dcInventory, retailInventory, inTransit, consumed)
    }

    ghost function View(): FlowState
      reads this
    {
      FlowState(Places(), minted, told, |pending|, timeCursor)
    }

    /** The seven pools alone. */
    function Pooled(): Pools
      reads this`harvested, this`cooled, this`packed, this`processorInventory, this`transformed, this`dcInventory, this`retailInventory
    {
      Pools(harvested, cooled, packed, processorInventory, transformed, dcInventory, retailInventory, [], [])
    }

    /** A lot that says it is of that stage, and stands at one of the stage's sites. */
    predicate InPlace(lot: Lot, stage: Stage)
      reads lot
    {
      lot.stage == stage && StandsAt(preset, stage, lot.location)
    }

    /** Every lot in a pool is in its place. */
    ghost predicate Staged()
      reads this`harvested, this`cooled, this`packed, this`processorInventory, this`transformed, this`dcInventory, this`retailInventory
      reads harvested, cooled, packed, processorInventory, transformed, dcInventory, retailInventory
    {
      forall stage: Stage, i: nat :: i < |PoolOf(Pooled(), stage)| ==> InPlace(PoolOf(Pooled(), stage)[i], stage)
    }

    /** The events that wait happened at processors. */
    ghost predicate QueuedAtProcessors()
      reads this`pending
    {
      forall k :: 0 <= k < |pending| ==> SiteNamed(preset.processors, pending[k].location)
    }

    ghost predicate Valid()
      reads this, harvested, cooled, packed, processorInventory, transformed, dcInventory, retailInventory
    {
      && WellFormed(preset) && CodesDiffer(codes)
      && Good(preset, codes, View())
      && Staged()
      && lotCounter == |minted| + 1
      && AllTell(pending, told)
      && QueuedAtProcessors()
    }

    /** From `before`, one allowed move led here and `e` is what it handed out. */
    ghost predicate Did(before: FlowState, d: Draw, e: Emission)
      reads this
    {
      && Allowed(preset, scale, codes, before, d)
      && View() == After(preset, before, d)
      && Handed(before, View(), e)
    }

    constructor (preset: Preset, scale: Scale, codes: (int, nat) -> string, now: int)
      requires WellFormed(preset) && CodesDiffer(codes)
      ensures Valid() && View() == Start(now - 12 * 60 * MINUTE)
      ensures this.preset == Scaled(preset, scale) && this.scale == scale && this.codes == codes
    {
      this.preset, this.scale, this.codes := Scaled(preset, scale), scale, codes;
      harvested, cooled, packed, processorInventory, transformed, dcInventory, retailInventory := [], [], [], [], [], [], [];
      inTransit, pending := [], [];
      timeCursor, lotCounter := now - 12 * 60 * MINUTE, 1;
      consumed, minted, told := [], [], [];
      new;
      hide WellFormed, Scaled;
      ScaleKeepsRunnable(preset, scale);
      StartIsGood(this.preset, codes, timeCursor);
    }

    /** The clock moves forward, never past the ceiling but by the smallest step. */
    method AdvanceTime(least: int, most: int, ceiling: int)
      requires 1 <= least <= most
      modifies this`timeCursor
      ensures old(timeCursor) < timeCursor
      ensures timeCursor <= ceiling || timeCursor == old(timeCursor) + 1
      ensures timeCursor <= old(timeCursor) + most * MINUTE
      ensures Waited(old(timeCursor), timeCursor, least, most, ceiling)
    {
      var minutes: int :| least <= minutes <= most;
      var candidate := timeCursor + minutes * MINUTE;
      if candidate > ceiling {
        candidate := if ceiling > timeCursor then ceiling else timeCursor + 1;
      }
      timeCursor := candidate;
    }

    /** The action's name as often in the list as it weighs. */
    method Weigh(weighted: seq<Kind>, k: Kind, possible: bool, weight: nat) returns (more: seq<Kind>)
      requires Weighed(preset, Places(), weighted) && WeightOf(preset, Places(), k) == if possible then weight else 0
      ensures Weighed(preset, Places(), more) && |more| == |weighted| + WeightOf(preset, Places(), k)
    {
      hide WeightOf;
      more := if possible then weighted + Repeat(k, weight) else weighted;
    }

    method ChooseAction() returns (k: Kind)
      requires Valid()
      ensures WeightOf(preset, Places(), k) > 0
    {
      hide Good, Staged, AllTell, Weighed, EnoughToTransform;
      var w := preset.weights;
      NothingWeighed(preset, Places());
      var packable := if preset.requiresCooling then cooled else harvested;
      var weighted := Weigh([], ToHarvest, |harvested| < preset.harvestTarget, w.harvest);
      weighted := Weigh(weighted, ToCool, preset.requiresCooling && harvested != [], w.cool);
      weighted := Weigh(weighted, ToPack, packable != [], w.pack);
      HarvestWithinTarget(preset, codes, View());
      SomethingToDo(preset, Places());
      assert weighted != [];
      weighted := Weigh(weighted, ToShip, packed != [] || transformed != [] || dcInventory != [], w.ship);
      weighted := Weigh(weighted, ToReceive, inTransit != [], w.receive);
      weighted := Weigh(weighted, ToTransform, EnoughToTransform(preset, |processorInventory|), w.transform);
      var i: nat :| i < |weighted|;
      k := weighted[i];
      WeighedAt(preset, Places(), weighted, i);
    }

    lemma Opened()
      requires Valid()
      ensures WellFormed(preset) && CodesDiffer(codes) && Good(preset, codes, View()) && Staged()
      ensures lotCounter == |minted| + 1 && AllTell(pending, told) && QueuedAtProcessors()
    {}

    /** What every action needs. */
    ghost predicate Ready(k: Kind)
      reads this, harvested, cooled, packed, processorInventory, transformed, dcInventory, retailInventory
    {
      Valid() && pending == [] && WeightOf(preset, Places(), k) > 0
    }

    lemma Prepared(k: Kind)
      requires Ready(k)
      ensures pending == [] && WeightOf(preset, Places(), k) > 0
      ensures WellFormed(preset) && CodesDiffer(codes) && Good(preset, codes, View()) && Staged()
      ensures lotCounter == |minted| + 1
    {}

    /** A move that was allowed and was made, and told of, keeps the engine valid. */
    lemma Concluded(before: FlowState, d: Draw, e: Emission)
      requires WellFormed(preset) && CodesDiffer(codes) && Good(preset, codes, before)
      requires Allowed(preset, scale, codes, before, d) && View() == After(preset, before, d)
      requires Staged() && lotCounter == |minted| + 1 && AllTell(pending, told) && QueuedAtProcessors()
      requires Handed(before, View(), e)
      ensures Valid() && Did(before, d, e)
    {
      hide Good, Allowed, After, WellFormed, CodesDiffer, Staged, AllTell, Tells;
      MoveKeepsGood(preset, scale, codes, before, d);
    }

    lemma NothingPending()
      requires pending == []
      ensures AllTell(pending, told) && QueuedAtProcessors()
    {}

    /** In every state the engine can be in: whoever holds a lot holds it where it belongs, and
        what is under way is bound for where it will belong. */
    lemma LotsStandWhereTheyBelong(lot: Lot)
      requires Valid()
      ensures lot in harvested ==> SiteNamed(if preset.industry.Seafood? then preset.coolers else preset.farms, lot.location)
      ensures lot in cooled ==> SiteNamed(preset.coolers, lot.location)
      ensures lot in packed ==> SiteNamed(preset.packers, lot.location)
      ensures lot in processorInventory ==> SiteNamed(preset.processors, lot.location)
      ensures lot in transformed ==> SiteNamed(preset.processors, lot.location)
      ensures lot in dcInventory ==> SiteNamed(preset.dcs, lot.location)
      ensures lot in retailInventory ==> SiteNamed(preset.retailers, lot.location)
      ensures forall shipment :: shipment in inTransit ==>
        match shipment.next
        case InProcessor => SiteNamed(preset.processors, shipment.destination)
        case InDc => SiteNamed(preset.dcs, shipment.destination)
        case InRetail => SiteNamed(preset.retailers, shipment.destination)
        case _ => false
    {
      Opened();
      hide Valid, Good, SiteNamed;
      forall stage ensures lot in PoolOf(Pooled(), stage) ==> lot.stage == stage && StandsAt(preset, stage, lot.location) {
        if lot in PoolOf(Pooled(), stage) {
          var i: nat :| i < |PoolOf(Pooled(), stage)| && PoolOf(Pooled(), stage)[i] == lot;
          assert InPlace(PoolOf(Pooled(), stage)[i], stage);
        }
      }
      assert lot in PoolOf(Pooled(), Harvested) <==> lot in harvested;
      assert lot in PoolOf(Pooled(), Cooled) <==> lot in cooled;
      assert lot in PoolOf(Pooled(), Packed) <==> lot in packed;
      assert lot in PoolOf(Pooled(), InProcessor) <==> lot in processorInventory;
      assert lot in PoolOf(Pooled(), Stage.Transformed) <==> lot in transformed;
      assert lot in PoolOf(Pooled(), InDc) <==> lot in dcInventory;
      assert lot in PoolOf(Pooled(), InRetail) <==> lot in retailInventory;
      forall shipment | shipment in inTransit ensures Fits(preset, shipment) {
        var i: nat :| i < |inTransit| && inTransit[i] == shipment;
        ShipmentFits(preset, codes, View(), i);
      }
    }

    method PickSite(sites: seq<Site>) returns (site: Site)
      requires sites != []
      ensures site in sites
    {
      var i: nat :| i < |sites|;
      site := sites[i];
    }

    /** The fields of the pools, one assigned. */
    method SetPool(stage: Stage, lots: seq<Lot>)
      modifies this`harvested, this`cooled, this`packed, this`processorInventory, this`transformed, this`dcInventory, this`retailInventory
      ensures Places() == WithPool(old(Places()), stage, lots)
      ensures Pooled() == WithPool(old(Pooled()), stage, lots)
    {
      match stage {
        case Harvested => harvested := lots;
        case Cooled => cooled := lots;
        case Packed => packed := lots;
        case InProcessor => processorInventory := lots;
        case Transformed => transformed := lots;
        case InDc => dcInventory := lots;
        case InRetail => retailInventory := lots;
      }
    }

    lemma PooledIsPlaced(stage: Stage)
      ensures PoolOf(Pooled(), stage) == PoolOf(Places(), stage)
    {}

    /** A pool keeps only some of its lots. */
    method Shrink(stage: Stage, lots: seq<Lot>)
      requires Staged() && forall k :: 0 <= k < |lots| ==> lots[k] in PoolOf(Pooled(), stage)
      modifies this`harvested, this`cooled, this`packed, this`processorInventory, this`transformed, this`dcInventory, this`retailInventory
      ensures Staged() && Places() == WithPool(old(Places()), stage, lots)
    {
      hide PoolOf, WithPool;
      ghost var p := Pooled();
      PoolsAreAllocated(p);
      SetPool(stage, lots);
      forall s, j: nat | j < |PoolOf(Pooled(), s)| ensures InPlace(PoolOf(Pooled(), s)[j], s) {
        if s == stage {
          var i: nat :| i < |PoolOf(p, s)| && PoolOf(p, s)[i] == lots[j];
        } else {
          assert PoolOf(Pooled(), s)[j] == PoolOf(p, s)[j];
        }
      }
    }

    ghost predicate Absent(lot: Lot)
      reads this`harvested, this`cooled, this`packed, this`processorInventory, this`transformed, this`dcInventory, this`retailInventory
    {
      forall stage: Stage :: lot !in PoolOf(Pooled(), stage)
    }

    /** Any one lot of the pool is taken out of it. */
    method Take(stage: Stage) returns (lot: Lot, ghost i: nat)
      requires Good(preset, codes, View()) && Staged() && PoolOf(Places(), stage) != []
      modifies this`harvested, this`cooled, this`packed, this`processorInventory, this`transformed, this`dcInventory, this`retailInventory
      ensures i < |old(PoolOf(Places(), stage))| && lot == old(PoolOf(Places(), stage))[i]
      ensures Places() == Pop(old(Places()), stage, i)
      ensures Staged() && Absent(lot)
    {
      hide Good, PoolOf, WithPool;
      PooledIsPlaced(stage);
      var pool := PoolOf(Pooled(), stage);
      var k: nat :| k < |pool|;
      i := k;
      lot := pool[k];
      ghost var before := Places();
      TakenIsAbsent(preset, codes, View(), stage, k);
      CutIsPart(pool, k);
      Shrink(stage, Cut(pool, k));
      assert Places() == Pop(before, stage, k);
      forall s ensures lot !in PoolOf(Pooled(), s) {
        PooledIsPlaced(s);
        assert lot !in PoolOf(Pop(before, stage, k), s);
      }
    }

    /** While it is in no pool, a lot is changed in place. */
    method Relabel(lot: Lot, stage: Stage, location: string)
      requires Staged() && Absent(lot)
      modifies lot
      ensures Staged() && lot.stage == stage && lot.location == location
    {
      lot.stage, lot.location := stage, location;
    }

    method Put(stage: Stage, lot: Lot)
      requires Staged() && InPlace(lot, stage)
      modifies this`harvested, this`cooled, this`packed, this`processorInventory, this`transformed, this`dcInventory, this`retailInventory
      ensures Staged() && Places() == Add(old(Places()), stage, [lot])
    {
      hide PoolOf, WithPool;
      ghost var p := Pooled();
      PooledIsPlaced(stage);
      PoolsAreAllocated(p);
      SetPool(stage, PoolOf(Pooled(), stage) + [lot]);
      forall s, j: nat | j < |PoolOf(Pooled(), s)| ensures InPlace(PoolOf(Pooled(), s)[j], s) {
        if s != stage || j < |PoolOf(p, s)| {
          assert PoolOf(Pooled(), s)[j] == PoolOf(p, s)[j];
        }
      }
    }

    // -------------------------------------------------------------- the actions

    /** A lot whose code is made from the clock and the counter. */
    method Mint(quantity: int, parents: seq<string>, stage: Stage, location: string, ghost ancestors: seq<Lot>) returns (lot: Lot)
      modifies this`lotCounter
      ensures fresh(lot) && lotCounter == old(lotCounter) + 1
      ensures lot.serial == old(lotCounter) && lot.code == codes(lot.stampedAt, lot.serial)
      ensures lot.quantity == quantity && lot.parents == parents && lot.ancestors == ancestors
      ensures lot.stage == stage && lot.location == location
    {
      lot := new Lot(codes(timeCursor, lotCounter), quantity, parents, stage, location, lotCounter, timeCursor, ancestors);
      lotCounter := lotCounter + 1;
    }

    method JoinLater(lot: Lot, stage: Stage, least: int, most: int, ceiling: int)
      requires Staged() && InPlace(lot, stage) && 1 <= least <= most
      modifies this`harvested, this`cooled, this`packed, this`processorInventory, this`transformed, this`dcInventory, this`retailInventory
      modifies this`timeCursor
      ensures Staged() && Places() == Add(old(Places()), stage, [lot])
      ensures old(timeCursor) < timeCursor && Waited(old(timeCursor), timeCursor, least, most, ceiling)
    {
      hide Staged, Add, Waited, InPlace;
      AdvanceTime(least, most, ceiling);
      Put(stage, lot);
    }

    /** A new lot joins a pool some minutes later. */
    method MakeLot(quantity: int, parents: seq<string>, ghost ancestors: seq<Lot>, stage: Stage, location: string,
                   least: int, most: int, ceiling: int) returns (lot: Lot)
      requires Staged() && 1 <= least <= most && StandsAt(preset, stage, location)
      modifies this
      ensures Staged() && lotCounter == old(lotCounter) + 1 && pending == old(pending)
      ensures lot.serial == old(lotCounter) && lot.code == codes(lot.stampedAt, lot.serial)
      ensures lot.quantity == quantity && lot.parents == parents && lot.ancestors == ancestors && lot.location == location
      ensures old(timeCursor) < timeCursor && Waited(old(timeCursor), timeCursor, least, most, ceiling)
      ensures Places() == Add(old(Places()), stage, [lot])
      ensures minted == old(minted) + [lot] && told == old(told)
    {
      hide Staged, Add, Waited, StandsAt;
      lot := Mint(quantity, parents, stage, location, ancestors);
      JoinLater(lot, stage, least, most, ceiling);
      minted := minted + [lot];
    }

    method HarvestLot(quantity: int, location: string, ceiling: int) returns (e: Emission, lot: Lot)
      requires Staged() && StandsAt(preset, Harvested, location)
      modifies this
      ensures Staged() && lotCounter == old(lotCounter) + 1 && pending == old(pending)
      ensures lot.serial == old(lotCounter) && lot.code == codes(lot.stampedAt, lot.serial)
      ensures lot.quantity == quantity && lot.parents == [] && lot.ancestors == []
      ensures old(timeCursor) < timeCursor && Waited(old(timeCursor), timeCursor, 15, 90, ceiling)
      ensures Places() == Add(old(Places()), Harvested, [lot])
      ensures minted == old(minted) + [lot] && told == old(told) + [Told(preset.sourceCte, lot, [], timeCursor)]
      ensures Tells(e, Told(preset.sourceCte, lot, [], timeCursor)) && e.location == lot.location == location
    {
      hide Staged, Add, Waited;
      lot := MakeLot(quantity, [], [], Harvested, location, 15, 90, ceiling);
      told := told + [Told(preset.sourceCte, lot, [], timeCursor)];
      e := Emission(preset.sourceCte, lot.code, lot.quantity, timeCursor, location, [], None, []);
    }

    method Harvest(ceiling: int) returns (e: Emission, ghost d: Draw)
      requires Ready(ToHarvest)
      modifies this
      ensures Valid() && Did(old(View()), d, e)
      ensures d.Harvest? && e.location == d.lot.location && Waited(old(timeCursor), d.at, 15, 90, ceiling)
    {
      Prepared(ToHarvest);
      hide Ready, Valid, Did, Waited, AllTell, Good, After, Allowed, WeightOf, WellFormed, CodesDiffer, Staged, Tells;
      CanDraw(preset, Places());
      ghost var before := View();
      var site := PickSite(if preset.industry.Seafood? then preset.coolers else preset.farms);
      var quantity := PickQuantity(preset, scale);
      var lot;
      e, lot := HarvestLot(quantity, site.name, ceiling);
      d := Draw.Harvest(lot, timeCursor);
      HarvestMoves(preset, scale, codes, before, lot, timeCursor);
      NothingPending();
      Concluded(before, d, e);
    }

    lemma HarvestedPool()
      ensures PoolOf(Places(), Harvested) == harvested
    {}

    /** The lot taken out is changed in place and joins the cooled ones. */
    method CoolInto(lot: Lot, location: string, ceiling: int) returns (e: Emission)
      requires Staged() && Absent(lot) && StandsAt(preset, Cooled, location)
      modifies this, lot
      ensures Staged() && lotCounter == old(lotCounter) && pending == old(pending) && minted == old(minted)
      ensures old(timeCursor) < timeCursor && Places() == Add(old(Places()), Cooled, [lot])
      ensures Waited(old(timeCursor), timeCursor, 10, 60, ceiling)
      ensures told == old(told) + [Told(Cooling, lot, [lot], timeCursor)]
      ensures Tells(e, Told(Cooling, lot, [lot], timeCursor)) && e.location == lot.location == location
    {
      hide Staged, Add, Absent, Waited;
      Relabel(lot, Cooled, location);
      AdvanceTime(10, 60, ceiling);
      Put(Cooled, lot);
      told := told + [Told(Cooling, lot, [lot], timeCursor)];
      e := Emission(Cooling, lot.code, lot.quantity, timeCursor, location, [lot.code], None, []);
    }

    method CoolLot(location: string, ceiling: int) returns (e: Emission, ghost i: nat)
      requires Good(preset, codes, View()) && Staged() && harvested != [] && StandsAt(preset, Cooled, location)
      modifies this, harvested
      ensures Staged() && lotCounter == old(lotCounter) && pending == old(pending)
      ensures i < |old(harvested)| && old(timeCursor) < timeCursor && Waited(old(timeCursor), timeCursor, 10, 60, ceiling)
      ensures var lot := old(harvested)[i];
        && Places() == Add(Pop(old(Places()), Harvested, i), Cooled, [lot])
        && minted == old(minted) && told == old(told) + [Told(Cooling, lot, [lot], timeCursor)]
        && Tells(e, Told(Cooling, lot, [lot], timeCursor)) && e.location == lot.location == location
    {
      hide Good, Staged, Add, Pop, PoolOf, WithPool, Absent, Tells, Waited;
      HarvestedPool();
      var lot;
      lot, i := Take(Harvested);
      e := CoolInto(lot, location, ceiling);
    }

    method Cool(ceiling: int) returns (e: Emission, ghost d: Draw)
      requires Ready(ToCool)
      modifies this, harvested
      ensures Valid() && Did(old(View()), d, e)
      ensures d.Cool? && d.i < |old(harvested)| && e.location == old(harvested)[d.i].location
      ensures Waited(old(timeCursor), d.at, 10, 60, ceiling)
    {
      Prepared(ToCool);
      hide Ready, Valid, Did, Waited, AllTell, Good, After, Allowed, WeightOf, WellFormed, CodesDiffer, Staged, Tells;
      CanDraw(preset, Places());
      ghost var before := View();
      var site := PickSite(preset.coolers);
      ghost var i;
      e, i := CoolLot(site.name, ceiling);
      d := Draw.Cool(i, timeCursor);
      CoolMoves(preset, scale, codes, before, i, timeCursor);
      NothingPending();
      Concluded(before, d, e);
    }

    /** A packed lot is made of the lot taken out, which is used up. */
    method PackInto(used: Lot, location: string, ceiling: int) returns (e: Emission, lot: Lot)
      requires Staged() && 0 < used.quantity && StandsAt(preset, Packed, location)
      modifies this
      ensures Staged() && lotCounter == old(lotCounter) + 1 && pending == old(pending) && old(timeCursor) < timeCursor
      ensures Waited(old(timeCursor), timeCursor, 20, 120, ceiling)
      ensures lot.serial == old(lotCounter) && lot.code == codes(lot.stampedAt, lot.serial)
      ensures lot.parents == [used.code] && lot.ancestors == [used] && Percent(used.quantity, 92, 102, lot.quantity)
      ensures var p := Add(old(Places()), Packed, [lot]); Places() == p.(consumed := p.consumed + [used])
      ensures minted == old(minted) + [lot] && told == old(told) + [Told(InitialPacking, lot, [used], timeCursor)]
      ensures Tells(e, Told(InitialPacking, lot, [used], timeCursor)) && e.location == lot.location == location
    {
      hide Staged, Percent, Add, Waited;
      PercentExists(used.quantity, 92, 102);
      var quantity: int :| Percent(used.quantity, 92, 102, quantity);
      lot := MakeLot(quantity, [used.code], [used], Packed, location, 20, 120, ceiling);
      consumed := consumed + [used];
      told := told + [Told(InitialPacking, lot, [used], timeCursor)];
      e := Emission(InitialPacking, lot.code, lot.quantity, timeCursor, location, [used.code], Some(used.code), []);
    }

    method PackLot(location: string, ceiling: int) returns (e: Emission, lot: Lot, ghost i: nat)
      requires Good(preset, codes, View()) && Staged() && PoolOf(Places(), PackingPool(preset)) != []
      requires StandsAt(preset, Packed, location)
      modifies this
      ensures Staged() && lotCounter == old(lotCounter) + 1 && pending == old(pending)
      ensures i < |old(PoolOf(Places(), PackingPool(preset)))| && old(timeCursor) < timeCursor
      ensures Waited(old(timeCursor), timeCursor, 20, 120, ceiling)
      ensures lot.serial == old(lotCounter) && lot.code == codes(lot.stampedAt, lot.serial)
      ensures var used := old(PoolOf(Places(), PackingPool(preset)))[i];
        var p := Add(Pop(old(Places()), PackingPool(preset), i), Packed, [lot]);
        && lot.parents == [used.code] && lot.ancestors == [used]
        && Percent(used.quantity, 92, 102, lot.quantity)
        && Places() == p.(consumed := p.consumed + [used])
        && minted == old(minted) + [lot] && told == old(told) + [Told(InitialPacking, lot, [used], timeCursor)]
        && Tells(e, Told(InitialPacking, lot, [used], timeCursor)) && e.location == lot.location == location
    {
      hide Good, Staged, Percent, PoolOf, WithPool, Add, Pop, Tells, Absent, Waited;
      ghost var before := View();
      var used;
      used, i := Take(PackingPool(preset));
      PooledIsPositive(preset, codes, before, PackingPool(preset), i);
      e, lot := PackInto(used, location, ceiling);
    }

    method InitialPack(ceiling: int) returns (e: Emission, ghost d: Draw)
      requires Ready(ToPack)
      modifies this
      ensures Valid() && Did(old(View()), d, e)
      ensures d.Pack? && e.location == d.lot.location && Waited(old(timeCursor), d.at, 20, 120, ceiling)
    {
      Prepared(ToPack);
      hide Ready, Valid, Did, Waited, AllTell, Good, After, Allowed, WeightOf, WellFormed, CodesDiffer, Staged, Tells, Percent;
      hide PoolOf, WithPool, Pop, Add;
      CanDraw(preset, Places());
      ghost var before := View();
      var site := PickSite(preset.packers);
      var lot;
      ghost var i;
      e, lot, i := PackLot(site.name, ceiling);
      d := Draw.Pack(i, lot, timeCursor);
      PackMoves(preset, scale, codes, before, i, lot, timeCursor);
      NothingPending();
      Concluded(before, d, e);
    }

    /** The pools a shipment may leave from. */
    method ChoosePool() returns (from: Stage)
      requires packed != [] || transformed != [] || dcInventory != []
      ensures from in [Packed, Stage.Transformed, InDc] && PoolOf(Places(), from) != []
    {
      var options: seq<Stage> := [];
      if packed != [] {
        options := options + [Packed];
      }
      if transformed != [] {
        options := options + [Stage.Transformed];
      }
      if dcInventory != [] {
        options := options + [InDc];
      }
      var i: nat :| i < |options|;
      from := options[i];
    }

    /** Where a shipment from that pool goes. */
    method Route(from: Stage) returns (site: Site, next: Stage)
      requires from in [Packed, Stage.Transformed, InDc]
      requires preset.dcs != [] && preset.retailers != [] && (preset.toProcessor > 0 ==> preset.processors != [])
      ensures Routes(preset, from, next) && StandsAt(preset, next, site.name)
    {
      var roll: nat :| roll < 100;
      if from == Packed && roll < preset.toProcessor {
        next := InProcessor;
        site := PickSite(preset.processors);
      } else if from != InDc {
        next := InDc;
        site := PickSite(preset.dcs);
      } else {
        next := InRetail;
        site := PickSite(preset.retailers);
      }
    }

    method ShipLot(from: Stage, destination: string, next: Stage, ceiling: int)
      returns (e: Emission, ghost i: nat, ghost origin: string)
      requires Good(preset, codes, View()) && Staged() && PoolOf(Places(), from) != []
      modifies this
      ensures Staged() && lotCounter == old(lotCounter) && pending == old(pending)
      ensures i < |old(PoolOf(Places(), from))| && old(timeCursor) < timeCursor
      ensures Waited(old(timeCursor), timeCursor, 30, 180, ceiling)
      ensures var lot := old(PoolOf(Places(), from))[i];
        var p := Pop(old(Places()), from, i);
        && Places() == p.(transit := p.transit + [Shipment(lot, origin, destination, next)])
        && inTransit == old(inTransit) + [Shipment(lot, origin, destination, next)]
        && minted == old(minted) && told == old(told) + [Told(Shipping, lot, Named(lot), timeCursor)]
        && Tells(e, Told(Shipping, lot, Named(lot), timeCursor)) && e.location == origin == lot.location
    {
      hide Good, Staged, PoolOf, WithPool, Pop, Named, Waited;
      ghost var before := View();
      var lot;
      lot, i := Take(from);
      AdvanceTime(30, 180, ceiling);
      origin := lot.location;
      inTransit := inTransit + [Shipment(lot, lot.location, destination, next)];
      told := told + [Told(Shipping, lot, Named(lot), timeCursor)];
      PooledNames(preset, codes, before, from, i);
      e := Emission(Shipping, lot.code, lot.quantity, timeCursor, lot.location,
                    if lot.parents == [] then [lot.code] else lot.parents, None, []);
    }

    method ShipFrom(from: Stage, destination: string, next: Stage, ceiling: int) returns (e: Emission, ghost d: Draw)
      requires Ready(ToShip) && PoolOf(Places(), from) != [] && Routes(preset, from, next) && StandsAt(preset, next, destination)
      modifies this
      ensures Valid() && Did(old(View()), d, e)
      ensures d.Ship? && d.i < |old(PoolOf(Places(), d.from))| && Waited(old(timeCursor), d.at, 30, 180, ceiling)
      ensures var lot := old(PoolOf(Places(), d.from))[d.i];
        && inTransit == old(inTransit) + [Shipment(lot, lot.location, d.destination, d.next)]
        && e.location == d.origin == lot.location
    {
      Prepared(ToShip);
      hide Ready, Valid, Did, Waited, AllTell, Good, After, Allowed, WeightOf, WellFormed, CodesDiffer, Staged, Tells, PoolOf;
      hide Routes, StandsAt, Named, Pop;
      ghost var before := View();
      ghost var i, origin;
      e, i, origin := ShipLot(from, destination, next, ceiling);
      d := Draw.Ship(from, i, next, origin, destination, timeCursor);
      ShipMoves(preset, scale, codes, before, from, i, next, origin, destination, timeCursor);
      NothingPending();
      Concluded(before, d, e);
    }

    method Ship(ceiling: int) returns (e: Emission, ghost d: Draw)
      requires Ready(ToShip)
      modifies this
      ensures Valid() && Did(old(View()), d, e)
      ensures d.Ship? && d.i < |old(PoolOf(Places(), d.from))| && Waited(old(timeCursor), d.at, 30, 180, ceiling)
      ensures var lot := old(PoolOf(Places(), d.from))[d.i];
        && inTransit == old(inTransit) + [Shipment(lot, lot.location, d.destination, d.next)]
        && e.location == d.origin == lot.location
    {
      Prepared(ToShip);
      CanDraw(preset, Places());
      hide Ready, Valid, Did, Waited, AllTell, Good, After, Allowed, WeightOf, WellFormed, CodesDiffer, Staged, Tells, PoolOf;
      hide Routes, StandsAt, Named, Pop, QueuedAtProcessors, Handed;
      var from := ChoosePool();
      var site, next := Route(from);
      e, d := ShipFrom(from, site.name, next, ceiling);
    }

    lemma InTransitIsAbsent(f: FlowState, i: nat)
      requires Good(preset, codes, f) && f == View() && i < |inTransit|
      ensures Absent(inTransit[i].lot)
    {
      hide Good, PoolOf;
      forall stage ensures inTransit[i].lot !in PoolOf(Pooled(), stage) {
        PooledIsPlaced(stage);
        TransitOnly(preset, codes, f, i, stage);
      }
    }

    /** The shipment is unloaded: its lot joins the pool of the stage it was bound for. */
    method Unload(k: nat) returns (lot: Lot)
      requires Good(preset, codes, View()) && Staged() && k < |inTransit|
      modifies this`inTransit, inTransit[k].lot
      modifies this`harvested, this`cooled, this`packed, this`processorInventory, this`transformed, this`dcInventory, this`retailInventory
      ensures Staged() && lot == old(inTransit)[k].lot && lot.location == old(inTransit)[k].destination
      ensures Places() == Add(old(Places()).(transit := Cut(old(inTransit), k)), Destination(old(inTransit)[k].next), [lot])
    {
      var shipment := inTransit[k];
      lot := shipment.lot;
      InTransitIsAbsent(View(), k);
      ShipmentFits(preset, codes, View(), k);
      hide Good, Staged, Cut, Add, StandsAt;
      inTransit := Cut(inTransit, k);
      var stage := if shipment.next == InProcessor then InProcessor
                   else if shipment.next == InDc then InDc else InRetail;
      Relabel(lot, stage, shipment.destination);
      Put(stage, lot);
    }

    method ReceiveLot(ceiling: int) returns (e: Emission, ghost i: nat)
      requires Good(preset, codes, View()) && Staged() && inTransit != []
      modifies this, Lots(inTransit)
      ensures Staged() && lotCounter == old(lotCounter) && pending == old(pending)
      ensures i < |old(inTransit)| && old(timeCursor) < timeCursor && Waited(old(timeCursor), timeCursor, 45, 240, ceiling)
      ensures var lot := old(inTransit)[i].lot;
        var p := old(Places()).(transit := Cut(old(inTransit), i));
        && Places() == Add(p, Destination(old(inTransit)[i].next), [lot])
        && minted == old(minted) && told == old(told) + [Told(Receiving, lot, Named(lot), timeCursor)]
        && Tells(e, Told(Receiving, lot, Named(lot), timeCursor))
        && e.location == lot.location == old(inTransit)[i].destination
    {
      hide Good, Staged, Named, Cut, Add, Destination, Waited;
      var k: nat :| k < |inTransit|;
      i := k;
      InTransitNames(preset, codes, View(), k);
      assert inTransit[k].lot == Lots(inTransit)[k];
      var lot := Unload(k);
      AdvanceTime(45, 240, ceiling);
      told := told + [Told(Receiving, lot, Named(lot), timeCursor)];
      e := Emission(Receiving, lot.code, lot.quantity, timeCursor, lot.location,
                    if lot.parents == [] then [lot.code] else lot.parents, None, []);
    }

    method Receive(ceiling: int) returns (e: Emission, ghost d: Draw)
      requires Ready(ToReceive)
      modifies this, Lots(inTransit)
      ensures Valid() && Did(old(View()), d, e)
      ensures Waited(old(timeCursor), d.at, 45, 240, ceiling)
      ensures d.Receive? && d.i < |old(inTransit)| && inTransit == Cut(old(inTransit), d.i)
      ensures var shipment := old(inTransit)[d.i]; var lot := shipment.lot;
        && processorInventory == old(processorInventory) + (if shipment.next == InProcessor then [lot] else [])
        && dcInventory == old(dcInventory) + (if shipment.next == InDc then [lot] else [])
        && retailInventory == old(retailInventory) + (if shipment.next == InRetail then [lot] else [])
        && e.location == lot.location == shipment.destination
    {
      Prepared(ToReceive);
      hide Ready, Valid, Did, Waited, AllTell, Good, After, Allowed, WeightOf, WellFormed, CodesDiffer, Staged, Tells, Destination, Add, Cut;
      CanDraw(preset, Places());
      ghost var before := View();
      ghost var i;
      e, i := ReceiveLot(ceiling);
      d := Draw.Receive(i, timeCursor);
      ShipmentFits(preset, codes, before, i);
      ReceivedInto(before.pools.(transit := Cut(before.pools.transit, i)), before.pools.transit[i].next, before.pools.transit[i].lot);
      ReceiveMoves(preset, scale, codes, before, i, timeCursor);
      NothingPending();
      Concluded(before, d, e);
    }

    /** The inputs are sampled, then removed by value. */
    method TakeInputs() returns (inputs: seq<Lot>)
      requires WellFormed(preset) && CodesDiffer(codes) && Good(preset, codes, View()) && Staged()
      requires EnoughToTransform(preset, |processorInventory|)
      modifies this`harvested, this`cooled, this`packed, this`processorInventory, this`transformed, this`dcInventory, this`retailInventory
      ensures inputs != [] && Distinct(inputs) && SampleSize(preset, |old(processorInventory)|, |inputs|)
      ensures forall k :: 0 <= k < |inputs| ==> inputs[k] in old(processorInventory)
      ensures Places() == WithPool(old(Places()), InProcessor, Minus(old(processorInventory), inputs))
      ensures Staged()
    {
      hide Good, CodesDiffer;
      PoolIsSound(preset, codes, View(), InProcessor);
      var c: nat :| c < |preset.inputChoices|;
      inputs := Sample(processorInventory, Min(|processorInventory|, preset.inputChoices[c]));
      forall i, k | 0 <= i < |processorInventory| && 0 <= k < |inputs| && processorInventory[i].code == inputs[k].code
        ensures processorInventory[i] == inputs[k]
      {
        SameCodeSameLot(preset, codes, View(), processorInventory[i], inputs[k]);
      }
      MinusIsPart(processorInventory, inputs);
      var rest := RemoveByValue(processorInventory, inputs);
      Shrink(InProcessor, rest);
    }

    /** The sellable lots of a transformation, all made from the same inputs. */
    method MakeOutputs(values: seq<int>, inputs: seq<Lot>, location: string) returns (outputs: seq<Lot>)
      requires StandsAt(preset, Stage.Transformed, location)
      modifies this`lotCounter
      ensures lotCounter == old(lotCounter) + |values|
      ensures MadeFrom(codes, old(lotCounter), inputs, outputs) && |outputs| == |values|
      ensures forall k :: 0 <= k < |outputs| ==>
        fresh(outputs[k]) && outputs[k].quantity == values[k] && InPlace(outputs[k], Stage.Transformed)
    {
      outputs := [];
      for k := 0 to |values|
        invariant lotCounter == old(lotCounter) + k && |outputs| == k
        invariant MadeFrom(codes, old(lotCounter), inputs, outputs)
        invariant forall j :: 0 <= j < k ==>
          fresh(outputs[j]) && outputs[j].quantity == values[j] && InPlace(outputs[j], Stage.Transformed)
      {
        var lot := Mint(values[k], CodesOf(inputs), Stage.Transformed, location, inputs);
        outputs := outputs + [lot];
      }
    }

    /** Each further lot's own record waits its turn, a smallest step of the clock apart. */
    method QueueEvents(lots: seq<Lot>, inputs: seq<Lot>, location: string) returns (ghost added: seq<Emission>)
      modifies this`pending, this`timeCursor
      ensures timeCursor == old(timeCursor) + |lots| && pending == old(pending) + added
      ensures Waiting(added, lots, inputs, old(timeCursor) + 1)
      ensures forall k :: 0 <= k < |added| ==> added[k].location == location
    {
      hide Tells;
      added := [];
      for k := 0 to |lots|
        invariant timeCursor == old(timeCursor) + k && pending == old(pending) + added
        invariant forall j :: 0 <= j < |added| ==> added[j].location == location
        invariant |added| == k && forall j :: 0 <= j < k ==> Tells(added[j], Told(Transformation, lots[j], inputs, old(timeCursor) + 1 + j))
      {
        timeCursor := timeCursor + 1;
        var e := Emission(Transformation, lots[k].code, lots[k].quantity, timeCursor, location,
                          CodesOf(inputs), None, CodesOf(inputs));
        TransformTells(e, lots[k], inputs);
        pending := pending + [e];
        added := added + [e];
      }
    }

    /** How much is put out: the gross output, and what of it is kept back for rework. */
    method DrawYield(inputs: seq<Lot>) returns (gross: int, spare: int)
      requires Total(inputs) >= 0
      ensures Percent(Total(inputs), 78, 91, gross)
      ensures spare == 0 || (|inputs| > 1 && Percent(gross, 6, 14, spare))
      ensures spare >= 0
    {
      var total := Total(inputs);
      PercentExists(total, 78, 91);
      gross :| Percent(total, 78, 91, gross);
      PercentNotNegative(total, 78, 91, gross);
      spare := 0;
      var roll: nat :| roll < 100;
      if |inputs| > 1 && roll < 45 {
        PercentExists(gross, 6, 14);
        spare :| Percent(gross, 6, 14, spare);
        PercentNotNegative(gross, 6, 14, spare);
      }
    }

    /** The rework lot, if any is kept back, joins the processor's inventory. */
    method MakeRework(spare: int, location: string, first: Lot) returns (rework: seq<Lot>)
      requires Staged() && spare >= 0 && StandsAt(preset, InProcessor, location)
      modifies this`lotCounter
      modifies this`harvested, this`cooled, this`packed, this`processorInventory, this`transformed, this`dcInventory, this`retailInventory
      ensures Staged() && Places() == Add(old(Places()), InProcessor, rework)
      ensures Reworked(codes, old(lotCounter), first, spare, rework) && lotCounter == old(lotCounter) + |rework|
    {
      hide Staged, Add;
      if spare > 0 {
        var lot := Mint(spare, [first.code], InProcessor, location, [first]);
        Put(InProcessor, lot);
        rework := [lot];
      } else {
        rework := [];
        AddNothing(Places(), InProcessor);
      }
    }

    method PutAll(stage: Stage, lots: seq<Lot>)
      requires Staged() && forall k :: 0 <= k < |lots| ==> InPlace(lots[k], stage)
      modifies this`harvested, this`cooled, this`packed, this`processorInventory, this`transformed, this`dcInventory, this`retailInventory
      ensures Staged() && Places() == Add(old(Places()), stage, lots)
    {
      hide Staged, Add;
      AddNothing(Places(), stage);
      for k := 0 to |lots|
        invariant Staged() && Places() == Add(old(Places()), stage, lots[..k])
      {
        Put(stage, lots[k]);
        AddTwice(old(Places()), stage, lots[..k], lots[k]);
        assert lots[..k] + [lots[k]] == lots[..k + 1];
      }
      assert lots[..|lots|] == lots;
    }

    method OutputCount() returns (count: nat)
      ensures 1 <= count <= OutputLimit(preset)
    {
      count :| 1 <= count <= OutputLimit(preset);
    }

    /** The yield of the inputs, shared out over the output lots. */
    method PlanOutputs(inputs: seq<Lot>) returns (values: seq<int>, gross: int, spare: int)
      requires Total(inputs) >= 0
      ensures Percent(Total(inputs), 78, 91, gross)
      ensures (spare == 0 || (|inputs| > 1 && Percent(gross, 6, 14, spare))) && spare >= 0
      ensures 1 <= |values| <= OutputLimit(preset) && Quantities.Sum(values, |values|) == Sellable(gross, spare)
      ensures forall k :: 0 <= k < |values| ==> values[k] >= 1
    {
      hide Percent;
      gross, spare := DrawYield(inputs);
      var count := OutputCount();
      values := Quantities.SplitQuantity(Sellable(gross, spare), count);
    }

    method MakeProducts(values: seq<int>, inputs: seq<Lot>, spare: int, location: string)
      returns (outputs: seq<Lot>, rework: seq<Lot>)
      requires Staged() && values != [] && spare >= 0
      requires StandsAt(preset, InProcessor, location) && StandsAt(preset, Stage.Transformed, location)
      modifies this`harvested, this`cooled, this`packed, this`processorInventory, this`transformed, this`dcInventory, this`retailInventory
      modifies this`lotCounter
      ensures Staged() && lotCounter == old(lotCounter) + |outputs| + |rework| && |outputs| == |values|
      ensures Places() == Add(Add(old(Places()), InProcessor, rework), Stage.Transformed, outputs)
      ensures MadeFrom(codes, old(lotCounter), inputs, outputs)
      ensures Reworked(codes, old(lotCounter) + |outputs|, outputs[0], spare, rework)
      ensures forall k :: 0 <= k < |outputs| ==> outputs[k].quantity == values[k]
      ensures Total(outputs) == Quantities.Sum(values, |values|)
    {
      hide Staged, Add, MadeFrom, Reworked, Total, InPlace, StandsAt;
      outputs := MakeOutputs(values, inputs, location);
      TotalIsSum(outputs, values, |values|);
      assert outputs[..|outputs|] == outputs;
      rework := MakeRework(spare, location, outputs[0]);
      PutAll(Stage.Transformed, outputs);
    }

    /** The inputs leave the inventory, the yield is drawn, the clock moves. */
    method DrawTransform(ceiling: int) returns (inputs: seq<Lot>, values: seq<int>, gross: int, spare: int)
      requires WellFormed(preset) && CodesDiffer(codes) && Good(preset, codes, View()) && Staged()
      requires EnoughToTransform(preset, |processorInventory|)
      modifies this`harvested, this`cooled, this`packed, this`processorInventory, this`transformed, this`dcInventory, this`retailInventory
      modifies this`timeCursor
      ensures Staged() && old(timeCursor) < timeCursor && Waited(old(timeCursor), timeCursor, 35, 150, ceiling)
      ensures inputs != [] && Distinct(inputs) && SampleSize(preset, |old(processorInventory)|, |inputs|)
      ensures forall k :: 0 <= k < |inputs| ==> inputs[k] in old(processorInventory)
      ensures Places() == WithPool(old(Places()), InProcessor, Minus(old(processorInventory), inputs))
      ensures Percent(Total(inputs), 78, 91, gross)
      ensures (spare == 0 || (|inputs| > 1 && Percent(gross, 6, 14, spare))) && spare >= 0
      ensures 1 <= |values| <= OutputLimit(preset) && Quantities.Sum(values, |values|) == Sellable(gross, spare)
      ensures forall k :: 0 <= k < |values| ==> values[k] >= 1
    {
      hide Good, Staged, WithPool, WellFormed, CodesDiffer, SampleSize, EnoughToTransform, Percent, Distinct, Total, Sellable, Minus, Waited;
      ghost var before := View();
      inputs := TakeInputs();
      InputsArePositive(preset, codes, before, inputs);
      values, gross, spare := PlanOutputs(inputs);
      AdvanceTime(35, 150, ceiling);
    }

    /** Everything a transformation does to the pools, before its events. */
    method TransformLots(location: string, ceiling: int)
      returns (inputs: seq<Lot>, outputs: seq<Lot>, rework: seq<Lot>, ghost gross: int, ghost spare: int)
      requires WellFormed(preset) && CodesDiffer(codes) && Good(preset, codes, View()) && Staged()
      requires EnoughToTransform(preset, |processorInventory|) && lotCounter == |minted| + 1
      requires StandsAt(preset, InProcessor, location) && StandsAt(preset, Stage.Transformed, location)
      modifies this`harvested, this`cooled, this`packed, this`processorInventory, this`transformed, this`dcInventory, this`retailInventory
      modifies this`lotCounter, this`timeCursor, this`consumed
      ensures Staged() && old(timeCursor) < timeCursor && Waited(old(timeCursor), timeCursor, 35, 150, ceiling)
      ensures lotCounter == old(lotCounter) + |outputs| + |rework|
      ensures inputs != [] && Distinct(inputs) && forall k :: 0 <= k < |inputs| ==> inputs[k] in old(processorInventory)
      ensures Places() == Made(old(Places()), inputs, outputs, rework)
      ensures Yields(preset, codes, |minted|, |old(processorInventory)|, inputs, outputs, rework, gross, spare)
    {
      hide Good, Staged, Add, WithPool, WellFormed, CodesDiffer, SampleSize, EnoughToTransform, Percent, Minus;
      hide MadeFrom, Reworked, Distinct, Total, Sellable, Made, Waited;
      ghost var p := Places();
      var values, gross', spare';
      inputs, values, gross', spare' := DrawTransform(ceiling);
      gross, spare := gross', spare';
      outputs, rework := MakeProducts(values, inputs, spare', location);
      consumed := consumed + inputs;
      MadeEitherWay(p, inputs, outputs, rework);
    }

    method QueueRest(inputs: seq<Lot>, outputs: seq<Lot>, rework: seq<Lot>, location: string)
      requires outputs != [] && pending == []
      modifies this`pending, this`timeCursor
      ensures timeCursor == old(timeCursor) + |outputs + rework| - 1
      ensures RestTold(pending, TellEach(outputs + rework, inputs, old(timeCursor)))
      ensures forall k :: 0 <= k < |pending| ==> pending[k].location == location
    {
      hide Waiting, RestTold;
      ghost var at := timeCursor;
      ghost var first := QueueEvents(outputs[1..], inputs, location);
      ghost var second := QueueEvents(rework, inputs, location);
      BothWait(first, second, inputs, outputs, rework, at);
      assert pending == first + second;
    }

    /** The first output's event is handed out, the others' and the rework lot's wait. */
    method TellTransform(inputs: seq<Lot>, outputs: seq<Lot>, rework: seq<Lot>, location: string) returns (e: Emission)
      requires outputs != [] && pending == []
      modifies this`pending, this`timeCursor, this`minted, this`told
      ensures var news := TellEach(outputs + rework, inputs, old(timeCursor));
        && minted == old(minted) + (outputs + rework) && told == old(told) + news
        && |pending| == |news| - 1 && timeCursor == news[|news| - 1].at
        && Tells(e, news[0]) && AllTell(pending, told) && e.location == location
        && forall k :: 0 <= k < |pending| ==> pending[k].location == location
    {
      hide Tells, AllTell, RestTold;
      e := Emission(Transformation, outputs[0].code, outputs[0].quantity, timeCursor, location,
                    CodesOf(inputs), None, CodesOf(inputs));
      TransformTells(e, outputs[0], inputs);
      ghost var news := TellEach(outputs + rework, inputs, timeCursor);
      QueueRest(inputs, outputs, rework, location);
      RestIsTold(pending, told, news);
      minted := minted + (outputs + rework);
      told := told + news;
    }

    method TransformAll(location: string, ceiling: int) returns (e: Emission, ghost d: Draw)
      requires WellFormed(preset) && CodesDiffer(codes) && Good(preset, codes, View()) && Staged()
      requires EnoughToTransform(preset, |processorInventory|) && lotCounter == |minted| + 1 && pending == []
      requires StandsAt(preset, InProcessor, location) && StandsAt(preset, Stage.Transformed, location)
      modifies this
      ensures Staged() && d.Transform? && old(timeCursor) < d.at && lotCounter == |minted| + 1
      ensures Waited(old(timeCursor), d.at, 35, 150, ceiling) && e.location == location && QueuedAtProcessors()
      ensures d.inputs != [] && Distinct(d.inputs) && forall k :: 0 <= k < |d.inputs| ==> d.inputs[k] in old(processorInventory)
      ensures Yields(preset, codes, |old(minted)|, |old(processorInventory)|, d.inputs, d.outputs, d.rework, d.gross, d.spare)
      ensures View() == Transforming(old(View()), d)
      ensures |old(told)| < |told| && Tells(e, told[|old(told)|]) && AllTell(pending, told)
    {
      hide Good, Staged, WellFormed, CodesDiffer, EnoughToTransform, Yields, Made, Distinct, Tells, AllTell, Waited;
      var inputs, outputs, rework;
      ghost var gross, spare;
      inputs, outputs, rework, gross, spare := TransformLots(location, ceiling);
      d := Draw.Transform(inputs, outputs, rework, gross, spare, timeCursor);
      YieldsSome(preset, codes, |minted|, |old(processorInventory)|, inputs, outputs, rework, gross, spare);
      e := TellTransform(inputs, outputs, rework, location);
    }

    method Transform(ceiling: int) returns (e: Emission, ghost d: Draw)
      requires Ready(ToTransform)
      modifies this
      ensures Valid() && Did(old(View()), d, e)
      ensures d.Transform? && SiteNamed(preset.processors, e.location) && Waited(old(timeCursor), d.at, 35, 150, ceiling)
    {
      Prepared(ToTransform);
      hide Ready, Valid, Did, Waited, AllTell, Good, After, Allowed, WeightOf, WellFormed, CodesDiffer, Staged, Tells;
      hide EnoughToTransform, Yields, Distinct, Transforming;
      CanDraw(preset, Places());
      ghost var before := View();
      var site := PickSite(preset.processors);
      e, d := TransformAll(site.name, ceiling);
      TransformMoves(preset, scale, codes, before, d);
      Concluded(before, d, e);
    }

    method Flushed() returns (e: Emission, ghost d: Draw)
      requires Valid() && pending != []
      modifies this`pending
      ensures Valid() && Did(old(View()), d, e)
      ensures SiteNamed(preset.processors, e.location)
    {
      Opened();
      hide Valid, Did, Good, WellFormed, CodesDiffer, Staged, Tells;
      ghost var before := View();
      e := pending[0];
      pending := pending[1..];
      d := Flush;
      Concluded(before, d, e);
    }

    /** A queued event goes out first; else an action is drawn and done. Whatever is drawn,
        the engine goes on: there is always an action, and it never lacks anything. */
    method NextEvent(ceiling: int) returns (e: Emission, ghost d: Draw)
      requires Valid()
      modifies this, harvested, Lots(inTransit)
      ensures Valid() && Did(old(View()), d, e)
    {
      hide Good, Staged, After, WellFormed, CodesDiffer;
      if pending != [] {
        e, d := Flushed();
        return;
      }
      var k := ChooseAction();
      hide Valid, Did, Allowed, WeightOf;
      match k {
        case ToHarvest => e, d := Harvest(ceiling);
        case ToCool => e, d := Cool(ceiling);
        case ToPack => e, d := InitialPack(ceiling);
        case ToShip => e, d := Ship(ceiling);
        case ToReceive => e, d := Receive(ceiling);
        case ToTransform => e, d := Transform(ceiling);
      }
    }
  }
}
