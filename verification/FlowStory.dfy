/**
 What the events tell of the lots: where each lot is, by the last event about it, and what
 it was made from, by the parents its events name.
 */
module FlowStory {
  import opened Common
  import opened Records
  import opened Scenarios
  import opened Flow
  import opened FlowRuns

  /** The kind of the last event about a lot. */
  ghost function LastCte(told: seq<Told>, lot: Lot): Option<Cte> {
    if told == [] then None
    else if told[|told| - 1].lot == lot then Some(told[|told| - 1].cte)
    else LastCte(told[..|told| - 1], lot)
  }

  /** The events after which a lot is in a pool. A rework lot never leaves the processor. */
  predicate LeadsTo(s: Preset, cte: Cte, stage: Stage) {
    match stage
    case Harvested => cte == s.sourceCte
    case Cooled => cte == Cooling
    case Packed => cte == InitialPacking
    case InProcessor => cte == Receiving || cte == Transformation
    case Transformed => cte == Transformation
    case InDc => cte == Receiving
    case InRetail => cte == Receiving
  }

  ghost predicate LedTo(s: Preset, told: seq<Told>, lot: Lot, stage: Stage) {
    LastCte(told, lot).Some? && LeadsTo(s, LastCte(told, lot).value, stage)
  }

  ghost predicate PoolsTold(s: Preset, f: FlowState) {
    forall stage: Stage, lot :: lot in PoolOf(f.pools, stage) ==> LedTo(s, f.told, lot, stage)
  }

  ghost predicate TransitTold(f: FlowState) {
    forall lot :: lot in Lots(f.pools.transit) ==> LastCte(f.told, lot) == Some(Shipping)
  }

  predicate AllOf(news: seq<Told>, cte: Cte) {
    forall k :: 0 <= k < |news| ==> news[k].cte == cte
  }

  ghost predicate TellsOf(news: seq<Told>, lot: Lot) {
    exists k :: 0 <= k < |news| && news[k].lot == lot
  }

  lemma {:induction false} LastAfter(told: seq<Told>, news: seq<Told>, cte: Cte, lot: Lot)
    requires AllOf(news, cte)
    ensures LastCte(told + news, lot) == if TellsOf(news, lot) then Some(cte) else LastCte(told, lot)
  {
    if news == [] {
      assert told + news == told;
    } else {
      var front := news[..|news| - 1];
      assert (told + news)[..|told + news| - 1] == told + front;
      LastAfter(told, front, cte, lot);
      assert news == front + [news[|news| - 1]];
      assert TellsOf(news, lot) <==> TellsOf(front, lot) || news[|news| - 1].lot == lot;
    }
  }

  /** The kind of the events a move makes. */
  function CteOf(s: Preset, d: Draw): Cte
    requires !d.Flush?
  {
    match d
    case Harvest(_, _) => s.sourceCte
    case Cool(_, _) => Cooling
    case Pack(_, _, _) => InitialPacking
    case Ship(_, _, _, _, _, _) => Shipping
    case Receive(_, _) => Receiving
    case Transform(_, _, _, _, _, _) => Transformation
  }

  lemma NewsAreOf(s: Preset, p: Pools, d: Draw)
    requires ReadyToTake(s, p, d) && !d.Flush?
    ensures AllOf(News(s, p, d), CteOf(s, d))
  {
    hide PoolOf, Named;
  }

  lemma {:induction false} MinusInside(s: seq<Lot>, gone: seq<Lot>, x: Lot)
    requires x in Minus(s, gone)
    ensures x in s
  {
    if s == [] {
    } else if x in Minus(s[..|s| - 1], gone) {
      MinusInside(s[..|s| - 1], gone, x);
    }
  }

  lemma JoinedPool(p: Pools, at: Stage, lots: seq<Lot>, stage: Stage, x: Lot)
    requires x in PoolOf(Add(p, at, lots), stage)
    ensures x in PoolOf(p, stage) || (stage == at && x in lots)
  {
    hide PoolOf;
  }

  lemma PoppedPool(p: Pools, at: Stage, i: nat, stage: Stage, x: Lot)
    requires i < |PoolOf(p, at)| && x in PoolOf(Pop(p, at, i), stage)
    ensures x in PoolOf(p, stage)
  {
    hide PoolOf;
  }

  lemma SamePools(p: Pools, transit: seq<Shipment>, consumed: seq<Lot>, stage: Stage)
    ensures PoolOf(p.(consumed := consumed), stage) == PoolOf(p, stage)
    ensures PoolOf(p.(transit := transit), stage) == PoolOf(p, stage)
  {}

  /** What joins a pool has just been told of. */
  lemma JoinedIsTold(s: Preset, p: Pools, d: Draw, stage: Stage, x: Lot)
    requires ReadyToTake(s, p, d) && !d.Flush? && x in PoolOf(Moved(s, p, d), stage)
    ensures x in PoolOf(p, stage) || TellsOf(News(s, p, d), x)
  {
    hide Named, Minus, PoolOf, WithPool, Add, Pop, Cut, TellEach;
    match d
    case Harvest(lot, _) => JoinedPool(p, Harvested, [lot], stage, x);
      assert News(s, p, d)[0].lot == lot;
    case Cool(i, _) =>
      var lot := p.harvested[i];
      HarvestedPoolIs(p);
      JoinedPool(Pop(p, Harvested, i), Cooled, [lot], stage, x);
      if x in PoolOf(Pop(p, Harvested, i), stage) { PoppedPool(p, Harvested, i, stage, x); }
      assert News(s, p, d)[0].lot == lot;
    case Pack(i, lot, _) =>
      var q := Pop(p, PackingPool(s), i);
      var r := Add(q, Packed, [lot]);
      SamePools(r, [], r.consumed + [PoolOf(p, PackingPool(s))[i]], stage);
      JoinedPool(q, Packed, [lot], stage, x);
      if x in PoolOf(q, stage) { PoppedPool(p, PackingPool(s), i, stage, x); }
      assert News(s, p, d)[0].lot == lot;
    case Ship(from, i, next, origin, destination, _) =>
      var q := Pop(p, from, i);
      SamePools(q, q.transit + [Shipment(PoolOf(p, from)[i], origin, destination, next)], [], stage);
      PoppedPool(p, from, i, stage, x);
    case Receive(i, _) =>
      var q := p.(transit := Cut(p.transit, i));
      SamePools(p, Cut(p.transit, i), [], stage);
      JoinedPool(q, Destination(p.transit[i].next), [p.transit[i].lot], stage, x);
      assert News(s, p, d)[0].lot == p.transit[i].lot;
    case Transform(_, _, _, _, _, _) => TransformJoins(s, p, d, stage, x);
  }

  lemma HarvestedPoolIs(p: Pools)
    ensures PoolOf(p, Harvested) == p.harvested
  {}

  lemma TransformJoins(s: Preset, p: Pools, d: Draw, stage: Stage, x: Lot)
    requires ReadyToTake(s, p, d) && d.Transform? && x in PoolOf(Moved(s, p, d), stage)
    ensures x in PoolOf(p, stage) || TellsOf(News(s, p, d), x)
  {
    hide Minus;
    var lots := d.outputs + d.rework;
    if x in Minus(p.processor, d.inputs) {
      MinusInside(p.processor, d.inputs, x);
    }
    if x in lots {
      var k: nat :| k < |lots| && lots[k] == x;
      assert News(s, p, d)[k].lot == x;
    }
  }

  lemma ShippedIsTold(s: Preset, p: Pools, d: Draw, x: Lot)
    requires ReadyToTake(s, p, d) && !d.Flush? && x in Lots(Moved(s, p, d).transit)
    ensures x in Lots(p.transit) || (d.Ship? && TellsOf(News(s, p, d), x))
  {
    hide Named, Minus, PoolOf, WithPool;
    var transit := Moved(s, p, d).transit;
    var k: nat :| k < |transit| && transit[k].lot == x;
    if d.Ship? {
      assert transit[k] in p.transit || News(s, p, d)[0].lot == x;
    } else {
      assert transit[k] in p.transit;
    }
    if transit[k] in p.transit {
      var j: nat :| j < |p.transit| && p.transit[j] == transit[k];
      assert Lots(p.transit)[j] == x;
    }
  }

  /** Where a lot just told of is. */
  ghost predicate Fitting(s: Preset, p: Pools, x: Lot, cte: Cte) {
    || (exists stage: Stage :: x in PoolOf(p, stage) && LeadsTo(s, cte, stage))
    || (x in Lots(p.transit) && cte == Shipping)
  }

  lemma AddedIsThere(p: Pools, at: Stage, lots: seq<Lot>, x: Lot)
    requires x in lots
    ensures x in PoolOf(Add(p, at, lots), at)
  {
    hide PoolOf;
  }

  /** And what is told of is where that kind of event leads. */
  lemma ToldIsPlaced(s: Preset, p: Pools, d: Draw, x: Lot)
    requires ReadyToTake(s, p, d) && !d.Flush? && TellsOf(News(s, p, d), x)
    ensures Fitting(s, Moved(s, p, d), x, CteOf(s, d))
  {
    hide Named, Minus, PoolOf, WithPool, Add, Pop, Cut;
    match d
    case Harvest(lot, _) => AddedIsThere(p, Harvested, [lot], x);
    case Cool(i, _) =>
      HarvestedPoolIs(p);
      AddedIsThere(Pop(p, Harvested, i), Cooled, [p.harvested[i]], x);
    case Pack(i, lot, _) =>
      var r := Add(Pop(p, PackingPool(s), i), Packed, [lot]);
      AddedIsThere(Pop(p, PackingPool(s), i), Packed, [lot], x);
      SamePools(r, [], r.consumed + [PoolOf(p, PackingPool(s))[i]], Packed);
    case Ship(from, i, next, origin, destination, _) =>
      var transit := Moved(s, p, d).transit;
      assert Lots(transit)[|transit| - 1] == x;
    case Receive(i, _) =>
      AddedIsThere(p.(transit := Cut(p.transit, i)), Destination(p.transit[i].next), [p.transit[i].lot], x);
    case Transform(inputs, outputs, rework, _, _, _) =>
      var q := WithPool(p, InProcessor, Minus(p.processor, inputs) + rework);
      var r := Add(q, Stage.Transformed, outputs);
      TransformPlaces(p, inputs, outputs, rework, x);
      SamePools(r, [], r.consumed + inputs, Stage.Transformed);
      SamePools(r, [], r.consumed + inputs, InProcessor);
  }

  lemma TransformPlaces(p: Pools, inputs: seq<Lot>, outputs: seq<Lot>, rework: seq<Lot>, x: Lot)
    requires x in outputs + rework
    ensures var q := Add(WithPool(p, InProcessor, Minus(p.processor, inputs) + rework), Stage.Transformed, outputs);
      x in PoolOf(q, Stage.Transformed) || x in PoolOf(q, InProcessor)
  {
    hide Minus;
  }

  // ------------------------------------------------------------------ over whole runs

  ghost predicate StoryTold(s: Preset, f: FlowState) {
    PoolsTold(s, f) && TransitTold(f)
  }

  lemma OneFit(s: Preset, codes: (int, nat) -> string, f: FlowState, x: Lot, cte: Cte, stage: Stage)
    requires Good(s, codes, f) && Fitting(s, f.pools, x, cte) && x in PoolOf(f.pools, stage)
    ensures LeadsTo(s, cte, stage)
  {
    hide Good, PoolOf, LeadsTo;
    if at: Stage :| x in PoolOf(f.pools, at) && LeadsTo(s, cte, at) {
      if at != stage {
        OnlyHere(s, codes, f, stage, x, at);
      }
    } else {
      var i: nat :| i < |f.pools.transit| && Lots(f.pools.transit)[i] == x;
      TransitOnly(s, codes, f, i, stage);
    }
  }

  lemma OneFitInTransit(s: Preset, codes: (int, nat) -> string, f: FlowState, x: Lot, cte: Cte)
    requires Good(s, codes, f) && Fitting(s, f.pools, x, cte) && x in Lots(f.pools.transit)
    ensures cte == Shipping
  {
    hide Good, PoolOf, LeadsTo;
    var i: nat :| i < |f.pools.transit| && Lots(f.pools.transit)[i] == x;
    forall stage: Stage ensures x !in PoolOf(f.pools, stage) {
      TransitOnly(s, codes, f, i, stage);
    }
  }

  lemma MoveKeepsPools(s: Preset, codes: (int, nat) -> string, f: FlowState, d: Draw, g: FlowState)
    requires ReadyToTake(s, f.pools, d) && !d.Flush? && g.pools == Moved(s, f.pools, d)
    requires g.told == f.told + News(s, f.pools, d) && Good(s, codes, g) && StoryTold(s, f)
    ensures PoolsTold(s, g)
  {
    hide Good, PoolOf, LeadsTo, Moved, News, ReadyToTake, CteOf, LastCte, TellsOf, Fitting, TransitTold;
    NewsAreOf(s, f.pools, d);
    forall stage: Stage, lot | lot in PoolOf(g.pools, stage) ensures LedTo(s, g.told, lot, stage) {
      LastAfter(f.told, News(s, f.pools, d), CteOf(s, d), lot);
      if TellsOf(News(s, f.pools, d), lot) {
        ToldIsPlaced(s, f.pools, d, lot);
        OneFit(s, codes, g, lot, CteOf(s, d), stage);
      } else {
        JoinedIsTold(s, f.pools, d, stage, lot);
        assert LedTo(s, f.told, lot, stage);
      }
    }
  }

  lemma MoveKeepsTransit(s: Preset, codes: (int, nat) -> string, f: FlowState, d: Draw, g: FlowState)
    requires ReadyToTake(s, f.pools, d) && !d.Flush? && g.pools == Moved(s, f.pools, d)
    requires g.told == f.told + News(s, f.pools, d) && Good(s, codes, g) && StoryTold(s, f)
    ensures TransitTold(g)
  {
    hide Good, PoolOf, LeadsTo, Moved, News, ReadyToTake, CteOf, LastCte, TellsOf, Fitting, PoolsTold;
    NewsAreOf(s, f.pools, d);
    forall lot | lot in Lots(g.pools.transit) ensures LastCte(g.told, lot) == Some(Shipping) {
      LastAfter(f.told, News(s, f.pools, d), CteOf(s, d), lot);
      if TellsOf(News(s, f.pools, d), lot) {
        ToldIsPlaced(s, f.pools, d, lot);
        OneFitInTransit(s, codes, g, lot, CteOf(s, d));
      } else {
        ShippedIsTold(s, f.pools, d, lot);
      }
    }
  }

  lemma AfterIs(s: Preset, f: FlowState, d: Draw)
    requires ReadyToTake(s, f.pools, d)
    ensures var g := After(s, f, d);
      if d.Flush? then g.pools == f.pools && g.told == f.told
      else g.pools == Moved(s, f.pools, d) && g.told == f.told + News(s, f.pools, d)
  {
    hide Moved, News;
  }

  lemma StartStory(s: Preset, cursor: int)
    ensures StoryTold(s, Start(cursor))
  {
    assert Lots([]) == [];
  }

  lemma MoveKeepsStory(s: Preset, scale: Scale, codes: (int, nat) -> string, f: FlowState, d: Draw)
    requires WellFormed(s) && Good(s, codes, f) && Allowed(s, scale, codes, f, d) && StoryTold(s, f)
    ensures StoryTold(s, After(s, f, d))
  {
    AllowedIsReady(s, scale, codes, f, d);
    AfterIs(s, f, d);
    MoveKeepsGood(s, scale, codes, f, d);
    hide *;
    if d.Flush? {
      SameStory(s, f, After(s, f, d));
    } else {
      MoveKeepsPools(s, codes, f, d, After(s, f, d));
      MoveKeepsTransit(s, codes, f, d, After(s, f, d));
      Both(s, After(s, f, d));
    }
  }

  lemma AllowedIsReady(s: Preset, scale: Scale, codes: (int, nat) -> string, f: FlowState, d: Draw)
    requires Allowed(s, scale, codes, f, d)
    ensures ReadyToTake(s, f.pools, d)
  {}

  lemma SameStory(s: Preset, f: FlowState, g: FlowState)
    requires StoryTold(s, f) && g.pools == f.pools && g.told == f.told
    ensures StoryTold(s, g)
  {}

  lemma Both(s: Preset, f: FlowState)
    requires PoolsTold(s, f) && TransitTold(f)
    ensures StoryTold(s, f)
  {}

  lemma {:induction false} RunKeepsStory(s: Preset, scale: Scale, codes: (int, nat) -> string, run: seq<FlowState>,
                                         draws: seq<Draw>, n: nat)
    requires WellFormed(s) && Run(s, scale, codes, run, draws) && n < |run|
    ensures StoryTold(s, run[n])
  {
    hide Allowed, After, Good, StoryTold, WellFormed;
    if n > 0 {
      RunKeepsStory(s, scale, codes, run, draws, n - 1);
      RunStaysGood(s, scale, codes, run, draws, n - 1);
      MoveKeepsStory(s, scale, codes, run[n - 1], draws[n - 1]);
    } else {
      StartStory(s, run[0].cursor);
    }
  }

  lemma LastAt(s: Preset, f: FlowState, lot: Lot, stage: Stage)
    requires PoolsTold(s, f)
    ensures lot in PoolOf(f.pools, stage) ==>
      LastCte(f.told, lot).Some? && LeadsTo(s, LastCte(f.told, lot).value, stage)
  {
    hide LeadsTo, PoolOf, LastCte;
  }

  /** In every state of any run, the last event about a lot tells where it is: a lot is under
      way after a shipping, at a distribution centre or a retailer after a receiving, packed
      after its packing, and so on. */
  lemma LastEventTells(s: Preset, scale: Scale, codes: (int, nat) -> string, run: seq<FlowState>,
                       draws: seq<Draw>, n: nat, lot: Lot)
    requires WellFormed(s) && Run(s, scale, codes, run, draws) && n < |run|
    ensures var p := run[n].pools; var last := LastCte(run[n].told, lot);
      && (lot in p.harvested ==> last == Some(s.sourceCte))
      && (lot in p.cooled ==> last == Some(Cooling))
      && (lot in p.packed ==> last == Some(InitialPacking))
      && (lot in p.processor ==> last == Some(Receiving) || last == Some(Transformation))
      && (lot in p.transformed ==> last == Some(Transformation))
      && (lot in p.dc || lot in p.retail ==> last == Some(Receiving))
      && (lot in Lots(p.transit) ==> last == Some(Shipping))
  {
    RunKeepsStory(s, scale, codes, run, draws, n);
    hide Run, WellFormed, LastCte, LedTo, PoolsTold;
    var f := run[n];
    LastAt(s, f, lot, Harvested);
    LastAt(s, f, lot, Cooled);
    LastAt(s, f, lot, Packed);
    LastAt(s, f, lot, InProcessor);
    LastAt(s, f, lot, Stage.Transformed);
    LastAt(s, f, lot, InDc);
    LastAt(s, f, lot, InRetail);
  }

  // ------------------------------------------------------------------ the parents named

  /** A source event names nobody, a cooling the lot itself, a packing the one lot it was
      packed from, a transformation what went in, and a shipment or its receipt the lots its
      lot was made from, or the lot itself if it was made from none. */
  ghost predicate NamesRightly(s: Preset, t: Told) {
    || (t.cte == s.sourceCte && t.named == [] && t.lot.ancestors == [])
    || (t.cte == Cooling && t.named == [t.lot])
    || (t.cte == InitialPacking && t.named == t.lot.ancestors && |t.named| == 1)
    || (t.cte == Transformation && t.named != [] && t.named == t.lot.ancestors)
    || (t.cte == Transformation && t.named != [] && |t.lot.ancestors| == 1 && t.named == t.lot.ancestors[0].ancestors)
    || ((t.cte == Shipping || t.cte == Receiving) && t.named == if t.lot.ancestors == [] then [t.lot] else t.lot.ancestors)
  }

  lemma NewsNameRightly(s: Preset, scale: Scale, codes: (int, nat) -> string, f: FlowState, d: Draw, k: nat)
    requires Allowed(s, scale, codes, f, d) && k < |News(s, f.pools, d)|
    ensures NamesRightly(s, News(s, f.pools, d)[k])
  {
    hide WeightOf, PoolOf, Makes, SampleSize, Percent, Total;
    if d.Transform? && k >= |d.outputs| {
      assert (d.outputs + d.rework)[k] == d.rework[k - |d.outputs|];
    }
  }

  /** Over any run, every event names its parents so. */
  lemma {:induction false} RunNamesRightly(s: Preset, scale: Scale, codes: (int, nat) -> string, run: seq<FlowState>,
                                           draws: seq<Draw>, n: nat, j: nat)
    requires WellFormed(s) && Run(s, scale, codes, run, draws) && n < |run| && j < |run[n].told|
    ensures NamesRightly(s, run[n].told[j])
    decreases n
  {
    hide Allowed, After, News, NamesRightly, WellFormed;
    if n > 0 {
      AllowedIsReady(s, scale, codes, run[n - 1], draws[n - 1]);
      AfterIs(s, run[n - 1], draws[n - 1]);
      if j < |run[n - 1].told| {
        RunNamesRightly(s, scale, codes, run, draws, n - 1, j);
      } else {
        NewsNameRightly(s, scale, codes, run[n - 1], draws[n - 1], j - |run[n - 1].told|);
      }
    }
  }

  // ------------------------------------------------------------------ what each move may do

  /** `q` hundredths lie between two percentages of `whole`, to the nearest. */
  predicate Between(q: int, low: int, high: int, whole: int) {
    low * whole - 50 <= 100 * q <= high * whole + 50
  }

  /** What a harvest, a cooling, a packing, a shipment and a transformation may draw, in numbers. */
  lemma DrawsWithinBounds(s: Preset, scale: Scale, codes: (int, nat) -> string, f: FlowState, d: Draw)
    requires Allowed(s, scale, codes, f, d) && !d.Flush?
    ensures d.Harvest? ==>
      var unit := if scale.Small? then 25 else if scale.Midsize? then 100 else 400;
      |f.pools.harvested| < s.harvestTarget && s.low * unit <= d.lot.quantity <= s.high * unit
    ensures d.Cool? ==> s.requiresCooling && d.i < |f.pools.harvested|
    ensures d.Pack? ==>
      var source := if s.requiresCooling then f.pools.cooled else f.pools.harvested;
      d.i < |source| && d.lot.ancestors == [source[d.i]] && Between(d.lot.quantity, 92, 102, source[d.i].quantity)
    ensures d.Ship? ==>
      || (d.from == Packed && d.next == InProcessor && s.toProcessor > 0)
      || (d.from == Packed && d.next == InDc && s.toProcessor < 100)
      || (d.from == Stage.Transformed && d.next == InDc)
      || (d.from == InDc && d.next == InRetail)
    ensures d.Transform? ==>
      && (|d.inputs| == |f.pools.processor| || |d.inputs| in s.inputChoices)
      && (exists n :: n in s.inputChoices && |d.inputs| <= n)
      && 1 <= |d.outputs| <= (if s.industry.Produce? || s.industry.Seafood? then 3 else 2)
      && Between(d.gross, 78, 91, Total(d.inputs))
      && (d.rework == [] <==> d.spare <= 0) && |d.rework| <= 1
      && (d.rework != [] ==> |d.inputs| > 1 && d.rework[0].quantity == d.spare && Between(d.spare, 6, 14, d.gross))
      && Total(d.outputs) == (if d.gross - d.spare < 100 then 100 else d.gross - d.spare)
  {
    hide WeightOf, Makes, Distinct, Total;
    if d.Transform? {
      var k :| 0 <= k < |s.inputChoices| && |d.inputs| == Min(|f.pools.processor|, s.inputChoices[k]);
      assert s.inputChoices[k] in s.inputChoices;
    }
  }
}
