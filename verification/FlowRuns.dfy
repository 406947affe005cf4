/**
 Over any run of moves: each lot is in exactly one place, codes never repeat, events come in
 time order and name only what was told of before, and quantities stay positive.
 */
module FlowRuns {
  import opened Common
  import opened Records
  import opened Scenarios
  import opened Flow
  import Gs1

  // ------------------------------------------------------------ nothing is lost

  lemma CutSplits(s: seq<Lot>, i: nat)
    requires i < |s|
    ensures multiset(Cut(s, i)) + multiset{s[i]} == multiset(s)
  {
    assert s == s[..i] + [s[i]] + s[i + 1..];
  }

  lemma AddJoins(s: seq<Lot>, t: seq<Lot>)
    ensures multiset(s + t) == multiset(s) + multiset(t)
  {}

  lemma Cancel(x: multiset<Lot>, y: multiset<Lot>, c: multiset<Lot>)
    requires x + c == y + c
    ensures x == y
  {
    assert (x + c) - c == x && (y + c) - c == y;
  }

  /** One pool replaced by another. */
  lemma PoolReplaced(p: Pools, s: Stage, lots: seq<Lot>)
    ensures Everything(WithPool(p, s, lots)) + multiset(PoolOf(p, s)) == Everything(p) + multiset(lots)
  {}

  lemma Popped(p: Pools, s: Stage, i: nat)
    requires i < |PoolOf(p, s)|
    ensures Everything(Pop(p, s, i)) + multiset{PoolOf(p, s)[i]} == Everything(p)
  {
    hide Everything, WithPool, Cut;
    PoolReplaced(p, s, Cut(PoolOf(p, s), i));
    CutSplits(PoolOf(p, s), i);
    var c := multiset(Cut(PoolOf(p, s), i));
    var x := multiset{PoolOf(p, s)[i]};
    assert Everything(Pop(p, s, i)) + x + c == Everything(p) + c;
    Cancel(Everything(Pop(p, s, i)) + x, Everything(p), c);
  }

  lemma Added(p: Pools, s: Stage, lots: seq<Lot>)
    ensures Everything(Add(p, s, lots)) == Everything(p) + multiset(lots)
  {
    hide Everything, WithPool;
    PoolReplaced(p, s, PoolOf(p, s) + lots);
    AddJoins(PoolOf(p, s), lots);
    var c := multiset(PoolOf(p, s));
    assert Everything(Add(p, s, lots)) + c == Everything(p) + multiset(lots) + c;
    Cancel(Everything(Add(p, s, lots)), Everything(p) + multiset(lots), c);
  }

  lemma Consumed(p: Pools, lots: seq<Lot>)
    ensures Everything(p.(consumed := p.consumed + lots)) == Everything(p) + multiset(lots)
  {
    AddJoins(p.consumed, lots);
  }

  lemma Dispatched(p: Pools, shipment: Shipment)
    ensures Everything(p.(transit := p.transit + [shipment])) == Everything(p) + multiset{shipment.lot}
  {
    assert Lots(p.transit + [shipment]) == Lots(p.transit) + [shipment.lot];
    AddJoins(Lots(p.transit), [shipment.lot]);
  }

  lemma Arrived(p: Pools, i: nat)
    requires i < |p.transit|
    ensures Everything(p.(transit := Cut(p.transit, i))) + multiset{p.transit[i].lot} == Everything(p)
  {
    assert Lots(Cut(p.transit, i)) == Cut(Lots(p.transit), i);
    CutSplits(Lots(p.transit), i);
  }

  /** The lots that are among `gone`, in order. */
  function Kept(s: seq<Lot>, gone: seq<Lot>): seq<Lot> {
    if s == [] then []
    else Kept(s[..|s| - 1], gone) + if s[|s| - 1] in gone then [s[|s| - 1]] else []
  }

  lemma NothingSplits(gone: seq<Lot>)
    ensures multiset(Minus([], gone)) + multiset(Kept([], gone)) == multiset([])
  {}

  lemma LastSplits(s: seq<Lot>)
    requires s != []
    ensures multiset(s) == multiset(s[..|s| - 1]) + multiset{s[|s| - 1]}
  {
    assert s == s[..|s| - 1] + [s[|s| - 1]];
  }

  lemma MinusOrKept(s: seq<Lot>, gone: seq<Lot>)
    requires s != []
    ensures var front, y := s[..|s| - 1], s[|s| - 1];
      if y in gone then
        multiset(Minus(s, gone)) == multiset(Minus(front, gone)) && multiset(Kept(s, gone)) == multiset(Kept(front, gone)) + multiset{y}
      else
        multiset(Minus(s, gone)) == multiset(Minus(front, gone)) + multiset{y} && multiset(Kept(s, gone)) == multiset(Kept(front, gone))
  {}

  lemma {:induction false} MinusSplits(s: seq<Lot>, gone: seq<Lot>)
    ensures multiset(Minus(s, gone)) + multiset(Kept(s, gone)) == multiset(s)
  {
    hide Minus, Kept;
    if s == [] {
      NothingSplits(gone);
    } else {
      MinusSplits(s[..|s| - 1], gone);
      MinusOrKept(s, gone);
      LastSplits(s);
    }
  }

  lemma DistinctFront(s: seq<Lot>)
    requires Distinct(s) && s != []
    ensures Distinct(s[..|s| - 1]) && s[|s| - 1] !in s[..|s| - 1]
  {
    var front := s[..|s| - 1];
    forall i: nat, j: nat | i < j < |front| ensures DifferentLots(front, i, j) { assert DifferentLots(s, i, j); }
    forall i | 0 <= i < |front| ensures front[i] != s[|s| - 1] { assert DifferentLots(s, i, |s| - 1); }
  }

  lemma {:induction false} KeptGrows(s: seq<Lot>, gone: seq<Lot>, x: Lot)
    requires Distinct(s) && x !in gone
    ensures multiset(Kept(s, gone + [x])) == multiset(Kept(s, gone)) + if x in s then multiset{x} else multiset{}
  {
    if s == [] {
    } else {
      var front, y := s[..|s| - 1], s[|s| - 1];
      assert s == front + [y];
      DistinctFront(s);
      KeptGrows(front, gone, x);
    }
  }

  lemma {:induction false} KeptNone(s: seq<Lot>)
    ensures Kept(s, []) == []
  {
    if s == [] {
    } else {
      KeptNone(s[..|s| - 1]);
    }
  }

  lemma {:induction false} KeptIsAll(s: seq<Lot>, gone: seq<Lot>)
    requires Distinct(s) && Distinct(gone) && forall k :: 0 <= k < |gone| ==> gone[k] in s
    ensures multiset(Kept(s, gone)) == multiset(gone)
  {
    if gone == [] {
      KeptNone(s);
    } else {
      var front, x := gone[..|gone| - 1], gone[|gone| - 1];
      assert gone == front + [x];
      DistinctFront(gone);
      KeptIsAll(s, front);
      KeptGrows(s, front, x);
    }
  }

  /** Removing distinct members leaves the rest. */
  lemma Removed(s: seq<Lot>, gone: seq<Lot>)
    requires Distinct(s) && Distinct(gone) && forall k :: 0 <= k < |gone| ==> gone[k] in s
    ensures multiset(Minus(s, gone)) + multiset(gone) == multiset(s)
  {
    MinusSplits(s, gone);
    KeptIsAll(s, gone);
  }

  lemma Balance(e: multiset<Lot>, e': multiset<Lot>, pool: multiset<Lot>, rest: multiset<Lot>,
                inputs: multiset<Lot>, outputs: multiset<Lot>, rework: multiset<Lot>)
    requires e' + pool == e + (rest + rework) && rest + inputs == pool
    ensures e' + outputs + inputs == e + (outputs + rework)
  {
    assert e' + inputs + rest == e' + (rest + inputs);
    assert e + rework + rest == e + (rest + rework);
    Cancel(e' + inputs, e + rework, rest);
    assert e' + outputs + inputs == (e' + inputs) + outputs;
    assert e + (outputs + rework) == (e + rework) + outputs;
  }

  lemma Transformed(p: Pools, inputs: seq<Lot>, outputs: seq<Lot>, rework: seq<Lot>)
    requires Distinct(p.processor) && Distinct(inputs) && forall k :: 0 <= k < |inputs| ==> inputs[k] in p.processor
    ensures var q := Add(WithPool(p, InProcessor, Minus(p.processor, inputs) + rework), Stage.Transformed, outputs);
      Everything(q.(consumed := q.consumed + inputs)) == Everything(p) + multiset(outputs + rework)
  {
    hide Everything, WithPool, Minus, Add;
    var r := WithPool(p, InProcessor, Minus(p.processor, inputs) + rework);
    var q := Add(r, Stage.Transformed, outputs);
    Removed(p.processor, inputs);
    AddJoins(Minus(p.processor, inputs), rework);
    PoolReplaced(p, InProcessor, Minus(p.processor, inputs) + rework);
    Added(r, Stage.Transformed, outputs);
    Consumed(q, inputs);
    AddJoins(outputs, rework);
    Balance(Everything(p), Everything(r), multiset(p.processor), multiset(Minus(p.processor, inputs)),
            multiset(inputs), multiset(outputs), multiset(rework));
  }

  lemma CoolConserves(s: Preset, p: Pools, d: Draw)
    requires d.Cool? && ReadyToTake(s, p, d)
    ensures Everything(Moved(s, p, d)) == Everything(p)
  {
    hide Everything, WithPool, Minus, Distinct, Cut, Pop, Add;
    Popped(p, Harvested, d.i);
    Added(Pop(p, Harvested, d.i), Cooled, [p.harvested[d.i]]);
  }

  lemma PackConserves(s: Preset, p: Pools, d: Draw)
    requires d.Pack? && ReadyToTake(s, p, d)
    ensures Everything(Moved(s, p, d)) == Everything(p) + multiset{d.lot}
  {
    hide Everything, WithPool, Minus, Distinct, Cut, Pop, Add;
    var pool := PackingPool(s);
    var q := Pop(p, pool, d.i);
    Popped(p, pool, d.i);
    Added(q, Packed, [d.lot]);
    Consumed(Add(q, Packed, [d.lot]), [PoolOf(p, pool)[d.i]]);
  }

  lemma ShipConserves(s: Preset, p: Pools, d: Draw)
    requires d.Ship? && ReadyToTake(s, p, d)
    ensures Everything(Moved(s, p, d)) == Everything(p)
  {
    hide Everything, WithPool, Minus, Distinct, Cut, Pop, Add;
    Popped(p, d.from, d.i);
    Dispatched(Pop(p, d.from, d.i), Shipment(PoolOf(p, d.from)[d.i], d.origin, d.destination, d.next));
  }

  lemma ReceiveConserves(s: Preset, p: Pools, d: Draw)
    requires d.Receive? && ReadyToTake(s, p, d)
    ensures Everything(Moved(s, p, d)) == Everything(p)
  {
    hide Everything, WithPool, Minus, Distinct, Cut, Pop, Add;
    Arrived(p, d.i);
    Added(p.(transit := Cut(p.transit, d.i)), Destination(p.transit[d.i].next), [p.transit[d.i].lot]);
  }

  /** Every move keeps every lot: what is somewhere afterwards is what was, and what was made. */
  lemma MoveConserves(s: Preset, p: Pools, d: Draw)
    requires ReadyToTake(s, p, d) && Distinct(p.processor)
    ensures Everything(Moved(s, p, d)) == Everything(p) + multiset(Born(d))
  {
    hide Everything, WithPool, Minus, Distinct, Cut, Pop, Add;
    match d
    case Flush =>
    case Harvest(lot, _) => Added(p, Harvested, [lot]);
    case Cool(_, _) => CoolConserves(s, p, d);
    case Pack(_, _, _) => PackConserves(s, p, d);
    case Ship(_, _, _, _, _, _) => ShipConserves(s, p, d);
    case Receive(_, _) => ReceiveConserves(s, p, d);
    case Transform(inputs, outputs, rework, _, _, _) => Transformed(p, inputs, outputs, rework);
  }

  // ------------------------------------------------------------ one place each

  lemma {:induction false} CountsOnce(s: seq<Lot>, x: Lot)
    requires Distinct(s)
    ensures multiset(s)[x] == if x in s then 1 else 0
  {
    if s == [] {
    } else {
      var front, y := s[..|s| - 1], s[|s| - 1];
      assert s == front + [y];
      assert Distinct(front) by {
        forall i: nat, j: nat | i < j < |front| ensures DifferentLots(front, i, j) { assert DifferentLots(s, i, j); }
      }
      forall i | 0 <= i < |front| ensures front[i] != y { assert DifferentLots(s, i, |s| - 1); }
      CountsOnce(front, x);
    }
  }

  lemma CountsTwice(s: seq<Lot>, i: nat, j: nat)
    requires i < j < |s| && s[i] == s[j]
    ensures multiset(s)[s[i]] >= 2
  {
    CutSplits(s, j);
    assert Cut(s, j)[i] == s[i];
    assert s[i] in multiset(Cut(s, j));
  }

  lemma MintedDistinct(codes: (int, nat) -> string, minted: seq<Lot>)
    requires LotsSound(codes, minted)
    ensures Distinct(minted)
  {
    forall i: nat, j: nat | i < j < |minted| ensures DifferentLots(minted, i, j) {
      assert SoundLot(codes, minted, i) && SoundLot(codes, minted, j);
    }
  }

  lemma SerialAt(codes: (int, nat) -> string, minted: seq<Lot>, i: nat)
    requires LotsSound(codes, minted) && i < |minted|
    ensures minted[i].serial == i + 1 && minted[i].quantity >= 1
  {
    assert SoundLot(codes, minted, i);
  }

  lemma MintedAt(codes: (int, nat) -> string, minted: seq<Lot>, lot: Lot)
    requires LotsSound(codes, minted)
    ensures Minted(minted, lot) <==> lot in minted
  {
    hide SoundLot;
    if lot in minted {
      var i: nat :| i < |minted| && minted[i] == lot;
      SerialAt(codes, minted, i);
    }
  }

  /** Every lot ever made is in exactly one pool, in transit, or used up, and nothing else is. */
  lemma OnePlaceEach(s: Preset, codes: (int, nat) -> string, f: FlowState, lot: Lot)
    requires Good(s, codes, f)
    ensures Everything(f.pools)[lot] == if lot in f.minted then 1 else 0
  {
    MintedDistinct(codes, f.minted);
    CountsOnce(f.minted, lot);
  }

  /** No two lots share a code. */
  lemma CodesNeverRepeat(s: Preset, codes: (int, nat) -> string, f: FlowState, i: nat, j: nat)
    requires Good(s, codes, f) && CodesDiffer(codes) && i < j < |f.minted|
    ensures f.minted[i].code != f.minted[j].code
  {
    assert SoundLot(codes, f.minted, i) && SoundLot(codes, f.minted, j);
  }

  lemma PartOfEverything(p: Pools, s: Stage)
    ensures multiset(PoolOf(p, s)) <= Everything(p)
    ensures multiset(Lots(p.transit)) <= Everything(p)
  {}

  lemma SubDistinct(s: seq<Lot>, all: seq<Lot>)
    requires Distinct(all) && multiset(s) <= multiset(all)
    ensures Distinct(s) && forall i :: 0 <= i < |s| ==> s[i] in all
  {
    forall i: nat, j: nat | i < j < |s| ensures DifferentLots(s, i, j) {
      if s[i] == s[j] {
        CountsTwice(s, i, j);
        CountsOnce(all, s[i]);
      }
    }
    forall i | 0 <= i < |s| ensures s[i] in all {
      assert s[i] in multiset(s);
    }
  }

  /** The lots of a pool are different from one another, and each was made. */
  lemma PoolIsSound(s: Preset, codes: (int, nat) -> string, f: FlowState, stage: Stage)
    requires Good(s, codes, f)
    ensures Distinct(PoolOf(f.pools, stage))
    ensures forall i :: 0 <= i < |PoolOf(f.pools, stage)| ==> Minted(f.minted, PoolOf(f.pools, stage)[i])
  {
    hide Everything, PoolOf, Minted, Distinct, LotsSound;
    MintedDistinct(codes, f.minted);
    PartOfEverything(f.pools, stage);
    SubDistinct(PoolOf(f.pools, stage), f.minted);
    forall i | 0 <= i < |PoolOf(f.pools, stage)| ensures Minted(f.minted, PoolOf(f.pools, stage)[i]) {
      MintedAt(codes, f.minted, PoolOf(f.pools, stage)[i]);
    }
  }

  lemma TransitIsSound(s: Preset, codes: (int, nat) -> string, f: FlowState, i: nat)
    requires Good(s, codes, f) && i < |f.pools.transit|
    ensures Minted(f.minted, f.pools.transit[i].lot)
  {
    hide Everything, Minted, Distinct, LotsSound;
    MintedDistinct(codes, f.minted);
    PartOfEverything(f.pools, InRetail);
    SubDistinct(Lots(f.pools.transit), f.minted);
    assert Lots(f.pools.transit)[i] == f.pools.transit[i].lot;
    MintedAt(codes, f.minted, f.pools.transit[i].lot);
  }

  lemma TwoPools(p: Pools, s: Stage, t: Stage)
    requires s != t
    ensures multiset(PoolOf(p, s)) + multiset(PoolOf(p, t)) <= Everything(p)
  {}

  lemma InBoth(s: seq<Lot>, t: seq<Lot>, x: Lot)
    requires x in s && x in t
    ensures (multiset(s) + multiset(t))[x] >= 2
  {
    assert x in multiset(s) && x in multiset(t);
  }

  /** A lot of one pool is in no other. */
  lemma OnlyHere(s: Preset, codes: (int, nat) -> string, f: FlowState, stage: Stage, lot: Lot, other: Stage)
    requires Good(s, codes, f) && lot in PoolOf(f.pools, stage) && other != stage
    ensures lot !in PoolOf(f.pools, other)
  {
    hide Everything, PoolOf, LotsSound, Distinct;
    TwoPools(f.pools, stage, other);
    MintedDistinct(codes, f.minted);
    CountsOnce(f.minted, lot);
    if lot in PoolOf(f.pools, other) {
      InBoth(PoolOf(f.pools, stage), PoolOf(f.pools, other), lot);
    }
  }

  lemma PoolAndTransit(p: Pools, s: Stage)
    ensures multiset(PoolOf(p, s)) + multiset(Lots(p.transit)) <= Everything(p)
  {}

  /** A lot in transit is in no pool. */
  lemma TransitOnly(s: Preset, codes: (int, nat) -> string, f: FlowState, i: nat, other: Stage)
    requires Good(s, codes, f) && i < |f.pools.transit|
    ensures f.pools.transit[i].lot !in PoolOf(f.pools, other)
  {
    hide Everything, PoolOf, LotsSound, Distinct;
    var lot := f.pools.transit[i].lot;
    PoolAndTransit(f.pools, other);
    MintedDistinct(codes, f.minted);
    CountsOnce(f.minted, lot);
    assert Lots(f.pools.transit)[i] == lot;
    if lot in PoolOf(f.pools, other) {
      InBoth(PoolOf(f.pools, other), Lots(f.pools.transit), lot);
    }
  }

  // ------------------------------------------------------------ the lots of a move

  /** The lot a move takes out of a pool, or its inputs, were made before. */
  lemma TakenIsMinted(s: Preset, codes: (int, nat) -> string, f: FlowState, lots: seq<Lot>, stage: Stage)
    requires Good(s, codes, f) && forall k :: 0 <= k < |lots| ==> lots[k] in PoolOf(f.pools, stage)
    ensures forall k :: 0 <= k < |lots| ==> Minted(f.minted, lots[k])
  {
    hide Good, Minted, PoolOf;
    PoolIsSound(s, codes, f, stage);
  }

  /** The ancestors of each new lot are older, and its quantity is positive. */
  ghost predicate BornWell(minted: seq<Lot>, lots: seq<Lot>) {
    forall k :: 0 <= k < |lots| ==>
      lots[k].quantity >= 1 && forall n :: 0 <= n < |lots[k].ancestors| ==> Older(minted + lots, lots[k].ancestors[n], lots[k])
  }

  lemma PercentIsPositive(whole: int, low: int, high: int, q: int)
    requires whole >= 1 && low > 50 && Percent(whole, low, high, q)
    ensures q >= 1
  {
    assert low * whole >= low;
  }

  lemma TransformIsBornWell(minted: seq<Lot>, inputs: seq<Lot>, outputs: seq<Lot>, rework: seq<Lot>)
    requires forall k :: 0 <= k < |inputs| ==> Minted(minted, inputs[k])
    requires forall k :: 0 <= k < |outputs| ==> outputs[k].ancestors == inputs && outputs[k].quantity >= 1
    requires forall k :: 0 <= k < |outputs + rework| ==> (outputs + rework)[k].serial == |minted| + k + 1
    requires outputs != [] && (rework != [] ==> |rework| == 1 && rework[0].ancestors == [outputs[0]] && rework[0].quantity >= 1)
    ensures BornWell(minted, outputs + rework)
  {
    var lots := outputs + rework;
    forall k, n | 0 <= k < |lots| && 0 <= n < |lots[k].ancestors| ensures Older(minted + lots, lots[k].ancestors[n], lots[k]) {
      if k < |outputs| {
        assert Minted(minted, inputs[n]);
      } else {
        assert lots[0] == outputs[0] && (minted + lots)[|minted|] == outputs[0];
      }
    }
  }

  lemma OneIsBornWell(minted: seq<Lot>, lot: Lot, used: Lot)
    requires Minted(minted, used) && lot.ancestors == [used] && lot.quantity >= 1 && lot.serial == |minted| + 1
    ensures BornWell(minted, [lot])
  {}

  lemma MoveIsBornWell(s: Preset, scale: Scale, codes: (int, nat) -> string, f: FlowState, d: Draw)
    requires Good(s, codes, f) && WellFormed(s) && Allowed(s, scale, codes, f, d)
    ensures BornWell(f.minted, Born(d))
  {
    hide Everything, ToldSound, AllRecorded, TimesIncrease, Minted, WeightOf;
    match d
    case Harvest(lot, _) =>
    case Pack(i, lot, _) =>
      PoolIsSound(s, codes, f, PackingPool(s));
      var used := PoolOf(f.pools, PackingPool(s))[i];
      MintedAt(codes, f.minted, used);
      var n: nat :| n < |f.minted| && f.minted[n] == used;
      SerialAt(codes, f.minted, n);
      PercentIsPositive(used.quantity, 92, 102, lot.quantity);
      assert Born(d)[0] == lot;
      OneIsBornWell(f.minted, lot, used);
    case Transform(inputs, outputs, rework, gross, spare, _) =>
      TakenIsMinted(s, codes, f, inputs, InProcessor);
      TransformIsBornWell(f.minted, inputs, outputs, rework);
    case _ =>
  }

  lemma OlderLater(minted: seq<Lot>, lots: seq<Lot>, a: Lot, lot: Lot)
    requires Older(minted, a, lot)
    ensures Older(minted + lots, a, lot)
  {}

  lemma SoundLater(codes: (int, nat) -> string, minted: seq<Lot>, lots: seq<Lot>, i: nat)
    requires i < |minted| && SoundLot(codes, minted, i)
    ensures SoundLot(codes, minted + lots, i)
  {
    hide Older;
    forall k | 0 <= k < |minted[i].ancestors| ensures Older(minted + lots, minted[i].ancestors[k], minted[i]) {
      OlderLater(minted, lots, minted[i].ancestors[k], minted[i]);
    }
  }

  lemma LotsStaySound(codes: (int, nat) -> string, minted: seq<Lot>, lots: seq<Lot>)
    requires LotsSound(codes, minted) && Makes(codes, minted, lots) && BornWell(minted, lots)
    ensures LotsSound(codes, minted + lots)
  {
    hide Older, Codes;
    forall i: nat | i < |minted + lots| ensures SoundLot(codes, minted + lots, i) {
      if i < |minted| {
        SoundLater(codes, minted, lots, i);
      } else {
        assert (minted + lots)[i] == lots[i - |minted|];
      }
    }
  }

  // ------------------------------------------------------------ the events of a move

  /** Each new event is about a lot that was made, and names it or older ones told of before. */
  ghost predicate NewsSound(minted: seq<Lot>, told: seq<Told>, news: seq<Told>) {
    forall j: nat :: j < |news| ==>
      && Minted(minted, news[j].lot)
      && forall k :: 0 <= k < |news[j].named| ==>
           news[j].named[k] == news[j].lot
           || (Older(minted, news[j].named[k], news[j].lot) && Recorded(told, |told|, news[j].named[k]))
  }

  lemma RecordedLater(told: seq<Told>, more: seq<Told>, n: nat, m: nat, lot: Lot)
    requires n <= |told| && n <= m <= |told + more| && Recorded(told, n, lot)
    ensures Recorded(told + more, m, lot)
  {
    var j :| 0 <= j < n && told[j].lot == lot;
    assert (told + more)[j].lot == lot;
  }

  lemma MintedLater(minted: seq<Lot>, lots: seq<Lot>, lot: Lot)
    requires Minted(minted, lot)
    ensures Minted(minted + lots, lot)
  {}

  lemma OldToldSound(minted: seq<Lot>, lots: seq<Lot>, told: seq<Told>, news: seq<Told>, j: nat)
    requires j < |told| && SoundTold(minted, told, j)
    ensures SoundTold(minted + lots, told + news, j)
  {
    hide Older, Recorded, Minted;
    var t := told[j];
    assert (told + news)[j] == t;
    MintedLater(minted, lots, t.lot);
    forall k | 0 <= k < |t.named|
      ensures t.named[k] == t.lot || (Older(minted + lots, t.named[k], t.lot) && Recorded(told + news, j, t.named[k]))
    {
      if t.named[k] != t.lot {
        OlderLater(minted, lots, t.named[k], t.lot);
        RecordedLater(told, news, j, j, t.named[k]);
      }
    }
  }

  lemma NewToldSound(minted: seq<Lot>, told: seq<Told>, news: seq<Told>, j: nat)
    requires j < |news| && NewsSound(minted, told, news)
    ensures SoundTold(minted, told + news, |told| + j)
  {
    hide Older, Recorded, Minted;
    var t := news[j];
    assert (told + news)[|told| + j] == t;
    forall k | 0 <= k < |t.named|
      ensures t.named[k] == t.lot || (Older(minted, t.named[k], t.lot) && Recorded(told + news, |told| + j, t.named[k]))
    {
      if t.named[k] != t.lot {
        RecordedLater(told, news, |told|, |told| + j, t.named[k]);
      }
    }
  }

  lemma ToldStaysSound(minted: seq<Lot>, lots: seq<Lot>, told: seq<Told>, news: seq<Told>)
    requires ToldSound(minted, told) && NewsSound(minted + lots, told, news)
    ensures ToldSound(minted + lots, told + news)
  {
    hide SoundTold, NewsSound;
    forall j: nat | j < |told + news| ensures SoundTold(minted + lots, told + news, j) {
      if j < |told| {
        OldToldSound(minted, lots, told, news, j);
      } else {
        NewToldSound(minted + lots, told, news, j - |told|);
      }
    }
  }

  lemma MintedIsRecorded(minted: seq<Lot>, told: seq<Told>, lot: Lot)
    requires Minted(minted, lot) && AllRecorded(minted, told)
    ensures Recorded(told, |told|, lot)
  {}

  /** The ancestors of a lot that was made are older and were told of. */
  lemma AncestorsAreTold(codes: (int, nat) -> string, minted: seq<Lot>, told: seq<Told>, lot: Lot, k: nat)
    requires LotsSound(codes, minted) && AllRecorded(minted, told) && Minted(minted, lot) && k < |lot.ancestors|
    ensures Older(minted, lot.ancestors[k], lot) && Recorded(told, |told|, lot.ancestors[k])
  {
    hide Recorded;
    assert SoundLot(codes, minted, lot.serial - 1);
    MintedIsRecorded(minted, told, lot.ancestors[k]);
  }

  lemma NamedIsSound(codes: (int, nat) -> string, minted: seq<Lot>, told: seq<Told>, cte: Cte, lot: Lot, at: int)
    requires LotsSound(codes, minted) && AllRecorded(minted, told) && Minted(minted, lot)
    ensures NewsSound(minted, told, [Told(cte, lot, Named(lot), at)])
  {
    hide Recorded, Older, SoundLot, Minted;
    forall k | 0 <= k < |Named(lot)|
      ensures Named(lot)[k] == lot || (Older(minted, Named(lot)[k], lot) && Recorded(told, |told|, Named(lot)[k]))
    {
      if lot.ancestors != [] {
        AncestorsAreTold(codes, minted, told, lot, k);
      }
    }
  }

  lemma TellEachIsSound(minted: seq<Lot>, told: seq<Told>, lots: seq<Lot>, inputs: seq<Lot>, at: int)
    requires AllRecorded(minted, told) && forall k :: 0 <= k < |inputs| ==> Minted(minted, inputs[k])
    requires forall k :: 0 <= k < |lots| ==> lots[k].serial == |minted| + k + 1
    ensures NewsSound(minted + lots, told, TellEach(lots, inputs, at))
  {
    hide Recorded;
    forall k | 0 <= k < |inputs| ensures Recorded(told, |told|, inputs[k]) {
      MintedIsRecorded(minted, told, inputs[k]);
    }
  }

  lemma NoNews(minted: seq<Lot>, told: seq<Told>)
    ensures NewsSound(minted, told, []) && minted + [] == minted
  {}

  lemma TellItself(minted: seq<Lot>, told: seq<Told>, cte: Cte, lot: Lot, at: int)
    requires Minted(minted, lot)
    ensures NewsSound(minted, told, [Told(cte, lot, [lot], at)])
  {}

  lemma TellOne(minted: seq<Lot>, told: seq<Told>, cte: Cte, lot: Lot, inputs: seq<Lot>, at: int)
    requires AllRecorded(minted, told) && forall k :: 0 <= k < |inputs| ==> Minted(minted, inputs[k])
    requires lot.serial == |minted| + 1
    ensures NewsSound(minted + [lot], told, [Told(cte, lot, inputs, at)])
  {
    TellEachIsSound(minted, told, [lot], inputs, at);
    assert TellEach([lot], inputs, at)[0] == Told(Transformation, lot, inputs, at);
  }

  lemma MoveIsNews(s: Preset, scale: Scale, codes: (int, nat) -> string, f: FlowState, d: Draw)
    requires Good(s, codes, f) && Allowed(s, scale, codes, f, d)
    ensures NewsSound(f.minted + Born(d), f.told, News(s, f.pools, d))
  {
    hide Everything, TimesIncrease, WeightOf, Recorded, SoundTold, Minted, Older, LotsSound, AllRecorded, NewsSound;
    match d
    case Flush => NoNews(f.minted, f.told);
    case Harvest(lot, at) =>
      assert Born(d)[0] == lot;
      TellOne(f.minted, f.told, s.sourceCte, lot, [], at);
    case Cool(i, at) =>
      PoolIsSound(s, codes, f, Harvested);
      TellItself(f.minted, f.told, Cooling, f.pools.harvested[i], at);
      assert f.minted + Born(d) == f.minted;
    case Pack(i, lot, at) =>
      PoolIsSound(s, codes, f, PackingPool(s));
      assert Born(d)[0] == lot;
      TellOne(f.minted, f.told, InitialPacking, lot, [PoolOf(f.pools, PackingPool(s))[i]], at);
    case Ship(from, i, _, _, _, at) =>
      PoolIsSound(s, codes, f, from);
      NamedIsSound(codes, f.minted, f.told, Shipping, PoolOf(f.pools, from)[i], at);
      assert f.minted + Born(d) == f.minted;
    case Receive(i, at) =>
      TransitIsSound(s, codes, f, i);
      NamedIsSound(codes, f.minted, f.told, Receiving, f.pools.transit[i].lot, at);
      assert f.minted + Born(d) == f.minted;
    case Transform(inputs, outputs, rework, _, _, at) =>
      TakenIsMinted(s, codes, f, inputs, InProcessor);
      TellEachIsSound(f.minted, f.told, outputs + rework, inputs, at);
  }

  /** The first events are about these lots, one each. */
  ghost predicate Tell(news: seq<Told>, lots: seq<Lot>) {
    |lots| <= |news| && forall k :: 0 <= k < |lots| ==> news[k].lot == lots[k]
  }

  /** Every new lot is told of by the move that makes it. */
  lemma BornIsTold(s: Preset, p: Pools, d: Draw)
    requires ReadyToTake(s, p, d)
    ensures Tell(News(s, p, d), Born(d))
  {
    hide PoolOf;
  }

  lemma AllStayRecorded(minted: seq<Lot>, lots: seq<Lot>, told: seq<Told>, news: seq<Told>)
    requires AllRecorded(minted, told) && Tell(news, lots)
    ensures AllRecorded(minted + lots, told + news)
  {
    forall i: nat | i < |minted + lots| ensures Recorded(told + news, |told + news|, (minted + lots)[i]) {
      if i < |minted| {
        RecordedLater(told, news, |told|, |told + news|, minted[i]);
      } else {
        var k := i - |minted|;
        assert lots[k] == (minted + lots)[i];
        assert (told + news)[|told| + k].lot == lots[k];
      }
    }
  }

  lemma NewsTimes(s: Preset, p: Pools, d: Draw)
    requires ReadyToTake(s, p, d) && !d.Flush?
    ensures forall k :: 0 <= k < |News(s, p, d)| ==> News(s, p, d)[k].at == d.at + k
  {
    hide PoolOf, Named;
  }

  lemma TimesStayIncreasing(told: seq<Told>, cursor: int, news: seq<Told>, at: int)
    requires TimesIncrease(told, cursor) && cursor < at
    requires forall k :: 0 <= k < |news| ==> news[k].at == at + k
    ensures TimesIncrease(told + news, if news == [] then cursor else news[|news| - 1].at)
  {
    var all := told + news;
    forall i: nat, j: nat | i < j < |all| ensures InOrder(all, i, j) {
      if j < |told| { assert InOrder(told, i, j); }
    }
  }

  lemma HarvestedIsBounded(s: Preset, p: Pools, d: Draw)
    requires ReadyToTake(s, p, d) && |p.harvested| <= s.harvestTarget
    ensures |Moved(s, p, d).harvested| <= s.harvestTarget
  {
    hide Minus;
  }

  /** Only a shipment joins those in transit, and it goes where it says. */
  lemma ShipmentsStayFit(s: Preset, scale: Scale, codes: (int, nat) -> string, f: FlowState, d: Draw)
    requires Good(s, codes, f) && Allowed(s, scale, codes, f, d)
    ensures ShipmentsFit(s, Moved(s, f.pools, d).transit)
  {
    hide Everything, LotsSound, ToldSound, AllRecorded, TimesIncrease, WeightOf, Makes, StandsAt, Minus, PoolOf;
  }

  lemma GoodParts(s: Preset, codes: (int, nat) -> string, f: FlowState, pools: Pools, born: seq<Lot>, news: seq<Told>, at: int)
    requires Good(s, codes, f) && |pools.harvested| <= s.harvestTarget && ShipmentsFit(s, pools.transit)
    requires Everything(pools) == Everything(f.pools) + multiset(born)
    requires LotsSound(codes, f.minted + born) && ToldSound(f.minted + born, f.told + news)
    requires AllRecorded(f.minted + born, f.told + news) && TimesIncrease(f.told + news, at)
    ensures Good(s, codes, FlowState(pools, f.minted + born, f.told + news, if news == [] then 0 else |news| - 1, at))
  {
    hide Everything, LotsSound, ToldSound, AllRecorded, TimesIncrease;
    AddJoins(f.minted, born);
  }

  lemma MoveKeepsStories(s: Preset, scale: Scale, codes: (int, nat) -> string, f: FlowState, d: Draw)
    requires Good(s, codes, f) && WellFormed(s) && Allowed(s, scale, codes, f, d) && !d.Flush?
    ensures var news := News(s, f.pools, d);
      && LotsSound(codes, f.minted + Born(d)) && ToldSound(f.minted + Born(d), f.told + news)
      && AllRecorded(f.minted + Born(d), f.told + news)
      && TimesIncrease(f.told + news, if news == [] then f.cursor else news[|news| - 1].at)
  {
    hide Everything, LotsSound, ToldSound, AllRecorded, TimesIncrease, Moved, News, Makes, BornWell, NewsSound;
    hide WeightOf, Drawn, ReadyToTake, WellFormed, Distinct, Born, Tell;
    var news := News(s, f.pools, d);
    MoveIsBornWell(s, scale, codes, f, d);
    LotsStaySound(codes, f.minted, Born(d));
    MoveIsNews(s, scale, codes, f, d);
    ToldStaysSound(f.minted, Born(d), f.told, news);
    BornIsTold(s, f.pools, d);
    AllStayRecorded(f.minted, Born(d), f.told, news);
    NewsTimes(s, f.pools, d);
    TimesStayIncreasing(f.told, f.cursor, news, d.at);
  }

  lemma FlushKeepsGood(s: Preset, codes: (int, nat) -> string, f: FlowState)
    requires Good(s, codes, f) && f.queued > 0
    ensures Good(s, codes, f.(queued := f.queued - 1))
  {
    hide Everything, LotsSound, ToldSound, AllRecorded, TimesIncrease;
  }

  lemma HarvestWithinTarget(s: Preset, codes: (int, nat) -> string, f: FlowState)
    requires Good(s, codes, f)
    ensures |f.pools.harvested| <= s.harvestTarget
  {}

  /** What every move keeps. */
  lemma MoveKeepsGood(s: Preset, scale: Scale, codes: (int, nat) -> string, f: FlowState, d: Draw)
    requires Good(s, codes, f) && WellFormed(s) && Allowed(s, scale, codes, f, d)
    ensures Good(s, codes, After(s, f, d))
  {
    hide Good, Everything, LotsSound, ToldSound, AllRecorded, TimesIncrease, Moved, News, Makes;
    hide WeightOf, Drawn, ReadyToTake, WellFormed, Distinct, Born;
    if d.Flush? {
      FlushKeepsGood(s, codes, f);
    } else {
      var news := News(s, f.pools, d);
      PoolIsSound(s, codes, f, InProcessor);
      HarvestWithinTarget(s, codes, f);
      MoveConserves(s, f.pools, d);
      MoveKeepsStories(s, scale, codes, f, d);
      HarvestedIsBounded(s, f.pools, d);
      ShipmentsStayFit(s, scale, codes, f, d);
      GoodParts(s, codes, f, Moved(s, f.pools, d), Born(d), news, if news == [] then f.cursor else news[|news| - 1].at);
    }
  }

  // ------------------------------------------------------------------ whole runs

  const NOWHERE: Pools := Pools([], [], [], [], [], [], [], [], [])

  function Start(cursor: int): FlowState {
    FlowState(NOWHERE, [], [], 0, cursor)
  }

  /** `run` is a sequence of states from a fresh engine, each one move after the one before. */
  ghost predicate Run(s: Preset, scale: Scale, codes: (int, nat) -> string, run: seq<FlowState>, draws: seq<Draw>) {
    && |run| == |draws| + 1 && run[0] == Start(run[0].cursor)
    && forall k :: 0 <= k < |draws| ==> Allowed(s, scale, codes, run[k], draws[k]) && run[k + 1] == After(s, run[k], draws[k])
  }

  lemma StartIsGood(s: Preset, codes: (int, nat) -> string, cursor: int)
    ensures Good(s, codes, Start(cursor))
  {
    assert Lots(NOWHERE.transit) == [];
  }

  lemma {:induction false} RunStaysGood(s: Preset, scale: Scale, codes: (int, nat) -> string, run: seq<FlowState>,
                                        draws: seq<Draw>, n: nat)
    requires WellFormed(s) && Run(s, scale, codes, run, draws) && n < |run|
    ensures Good(s, codes, run[n])
  {
    hide Allowed, After, Good;
    if n > 0 {
      RunStaysGood(s, scale, codes, run, draws, n - 1);
      MoveKeepsGood(s, scale, codes, run[n - 1], draws[n - 1]);
    } else {
      StartIsGood(s, codes, run[0].cursor);
    }
  }

  /** Whatever the draws: at the end of any run each lot is in one place, codes differ,
      quantities are positive and no more lots are harvested than the target. */
  lemma RunKeepsLots(s: Preset, scale: Scale, codes: (int, nat) -> string, run: seq<FlowState>, draws: seq<Draw>, n: nat)
    requires WellFormed(s) && CodesDiffer(codes) && Run(s, scale, codes, run, draws) && n < |run|
    ensures forall i :: 0 <= i < |run[n].minted| ==>
      Everything(run[n].pools)[run[n].minted[i]] == 1 && run[n].minted[i].quantity >= 1
    ensures |Everything(run[n].pools)| == |run[n].minted|
    ensures forall i, j :: 0 <= i < j < |run[n].minted| ==> run[n].minted[i].code != run[n].minted[j].code
    ensures |run[n].pools.harvested| <= s.harvestTarget
  {
    hide Everything, Run;
    RunStaysGood(s, scale, codes, run, draws, n);
    var f := run[n];
    forall i | 0 <= i < |f.minted| ensures Everything(f.pools)[f.minted[i]] == 1 && f.minted[i].quantity >= 1 {
      OnePlaceEach(s, codes, f, f.minted[i]);
      SerialAt(codes, f.minted, i);
    }
    forall i, j | 0 <= i < j < |f.minted| ensures f.minted[i].code != f.minted[j].code {
      CodesNeverRepeat(s, codes, f, i, j);
    }
  }

  /** The events handed out, in order: their times increase; each parent named is the lot's
      own code or that of a lot already told of, made earlier than this one. */
  lemma RunTellsInOrder(s: Preset, scale: Scale, codes: (int, nat) -> string, run: seq<FlowState>, draws: seq<Draw>, n: nat)
    requires WellFormed(s) && Run(s, scale, codes, run, draws) && n < |run|
    ensures forall i, j :: 0 <= i < j < |run[n].told| ==> run[n].told[i].at < run[n].told[j].at
    ensures forall j, k :: 0 <= j < |run[n].told| && 0 <= k < |run[n].told[j].named| ==>
      var t := run[n].told[j];
      t.named[k] == t.lot || (t.named[k].serial < t.lot.serial && Recorded(run[n].told, j, t.named[k]))
    ensures forall i :: 0 <= i < |run[n].minted| ==> Recorded(run[n].told, |run[n].told|, run[n].minted[i])
  {
    hide Everything, Run, Recorded;
    RunStaysGood(s, scale, codes, run, draws, n);
    var told := run[n].told;
    forall i, j | 0 <= i < j < |told| ensures told[i].at < told[j].at {
      assert InOrder(told, i, j);
    }
    forall j, k | 0 <= j < |told| && 0 <= k < |told[j].named|
      ensures told[j].named[k] == told[j].lot
        || (told[j].named[k].serial < told[j].lot.serial && Recorded(told, j, told[j].named[k]))
    {
      assert SoundTold(run[n].minted, told, j);
    }
  }

  /** In every state each shipment under way is bound for a processor, a distribution centre
      or a retailer of the preset, as its next stage says. */
  lemma RunKeepsShipments(s: Preset, scale: Scale, codes: (int, nat) -> string, run: seq<FlowState>, draws: seq<Draw>, n: nat, i: nat)
    requires WellFormed(s) && Run(s, scale, codes, run, draws) && n < |run| && i < |run[n].pools.transit|
    ensures var shipment := run[n].pools.transit[i];
      && (shipment.next == InProcessor || shipment.next == InDc || shipment.next == InRetail)
      && exists site: Site :: site.name == shipment.destination
           && site in (if shipment.next == InProcessor then s.processors else if shipment.next == InDc then s.dcs else s.retailers)
  {
    hide Everything, Run, LotsSound, ToldSound, AllRecorded, TimesIncrease;
    RunStaysGood(s, scale, codes, run, draws, n);
    var shipment := run[n].pools.transit[i];
    assert Fits(s, shipment);
    var k :| 0 <= k < |Tier(s, shipment.next)| && Tier(s, shipment.next)[k].name == shipment.destination;
    assert Tier(s, shipment.next)[k] in Tier(s, shipment.next);
  }

  /** In every state some action has weight, so the fallback harvest is never drawn. */
  lemma SomethingToDo(s: Preset, p: Pools)
    requires WellFormed(s) && |p.harvested| <= s.harvestTarget
    ensures WeightOf(s, p, ToHarvest) + WeightOf(s, p, ToCool) + WeightOf(s, p, ToPack) > 0
  {}

  /** A transformation puts out what it made and what it kept back: the gross output, or a
      unit more than was kept back if that is more. */
  lemma TransformKeepsMass(s: Preset, scale: Scale, codes: (int, nat) -> string, f: FlowState, d: Draw)
    requires d.Transform? && Allowed(s, scale, codes, f, d) && Good(s, codes, f)
    ensures Total(d.outputs) + Total(d.rework) == if d.gross >= d.spare + 100 then d.gross else d.spare + 100
    ensures Percent(Total(d.inputs), 78, 91, d.gross)
  {
    hide Good, WeightOf, Makes, SampleSize;
    if d.spare > 0 {
      assert d.rework == [d.rework[0]];
      assert Total(d.rework) == Total(d.rework[..0]) + d.rework[0].quantity;
    }
  }

  // ------------------------------------------------------------ the codes in use

  /** The codes of a plain scenario: the date of the cursor, then the lot counter. */
  function PlainCodes(date: int -> string): (int, nat) -> string {
    (t: int, n: nat) => Gs1.PlainCode(date(t), n)
  }

  /** Those of a GS1 scenario. */
  function SgtinCodes(date: int -> string): (int, nat) -> string {
    (t: int, n: nat) => Gs1.SgtinCode(date(t), n)
  }

  /** Dates written with eight characters, or six, make codes that never repeat a counter's. */
  lemma PlainCodesMeet(date: int -> string)
    requires forall t :: |date(t)| == 8
    ensures CodesDiffer(PlainCodes(date))
  {
    hide Gs1.PlainCode;
    var codes := PlainCodes(date);
    forall t, u, m: nat, n: nat | codes(t, m) == codes(u, n) ensures m == n {
      Gs1.PlainCodesDiffer(date(t), m, date(u), n);
    }
  }

  lemma SgtinCodesMeet(date: int -> string)
    requires forall t :: |date(t)| == 6
    ensures CodesDiffer(SgtinCodes(date))
  {
    hide Gs1.SgtinCode;
    var codes := SgtinCodes(date);
    forall t, u, m: nat, n: nat | codes(t, m) == codes(u, n) ensures m == n {
      Gs1.SgtinCodesDiffer(date(t), m, date(u), n);
    }
  }
}
