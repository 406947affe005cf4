/**
 The lineage graph of what an engine emits: every link leads to a lot with a record of its
 own, and links never run in a circle.
 */
module EngineLineage {
  import opened Common
  import opened Records
  import opened Scenarios
  import Flow
  import FlowRuns
  import Engine
  import opened Graph
  import Lineage

  /** The record is about the event's lot and names the parents the event does. */
  ghost predicate Stored(r: Record, t: Flow.Told) {
    r.event.lot == t.lot.code && forall lot :: Names(r, lot) <==> lot in Flow.Codes(t.named)
  }

  /** The log holds a record for each event so far, or for the first of them. */
  ghost predicate Log(records: seq<Record>, told: seq<Flow.Told>) {
    |records| <= |told| && forall i: nat :: i < |records| ==> Stored(records[i], told[i])
  }

  /** A record built from an emission, its parents and its two lineage KDEs. */
  predicate Holds(r: Record, e: Engine.Emission) {
    r.event.lot == e.lot && r.parents == e.parents && r.event.sourceLot == e.source && r.event.inputLots == e.inputs
  }

  /** A run of the engine with what each of its moves handed out. */
  ghost predicate Emits(s: Preset, scale: Scale, codes: (int, nat) -> string, run: seq<Flow.FlowState>,
                        draws: seq<Flow.Draw>, emitted: seq<Engine.Emission>)
  {
    && WellFormed(s) && FlowRuns.Run(s, scale, codes, run, draws) && |emitted| == |draws|
    && forall k: nat :: k < |emitted| ==> Engine.Handed(run[k], run[k + 1], emitted[k])
  }

  /** The first so many emissions stored, in order, and no other. */
  predicate Keeps(records: seq<Record>, emitted: seq<Engine.Emission>) {
    |records| <= |emitted| && forall i: nat :: i < |records| ==> Holds(records[i], emitted[i])
  }

  lemma OneMoreTold(s: Preset, scale: Scale, codes: (int, nat) -> string, f: Flow.FlowState, d: Flow.Draw)
    requires Flow.Allowed(s, scale, codes, f, d) && f.queued <= |f.told|
    ensures var g := Flow.After(s, f, d);
      g.queued <= |g.told| && |g.told| - g.queued == |f.told| - f.queued + 1 && f.told <= g.told
  {
    hide Flow.Moved, Flow.WeightOf;
  }

  /** What the first moves handed out are the first events told, in the same order. */
  lemma {:induction false} EmittedInOrder(s: Preset, scale: Scale, codes: (int, nat) -> string, run: seq<Flow.FlowState>,
                                          draws: seq<Flow.Draw>, emitted: seq<Engine.Emission>, n: nat)
    requires Emits(s, scale, codes, run, draws, emitted) && n < |run|
    ensures |run[n].told| == n + run[n].queued
    ensures forall k: nat :: k < n ==> Engine.Tells(emitted[k], run[n].told[k])
  {
    hide Flow.Allowed, Flow.After, Engine.Tells, WellFormed;
    if n == 0 {
    } else {
      EmittedInOrder(s, scale, codes, run, draws, emitted, n - 1);
      OneMoreTold(s, scale, codes, run[n - 1], draws[n - 1]);
      assert Engine.Handed(run[n - 1], run[n], emitted[n - 1]);
    }
  }

  /** Over any run: event `k` handed out is of the kind, the lot, its quantity and the time of
      event `k` told, and names its parents by their codes. */
  lemma EmittedAsTold(s: Preset, scale: Scale, codes: (int, nat) -> string, run: seq<Flow.FlowState>,
                      draws: seq<Flow.Draw>, emitted: seq<Engine.Emission>, k: nat)
    requires Emits(s, scale, codes, run, draws, emitted) && k < |emitted|
    ensures k < |run[|emitted|].told|
    ensures var e, t := emitted[k], run[|emitted|].told[k];
      && e.cte == t.cte && e.lot == t.lot.code && e.quantity == t.lot.quantity && e.timestamp == t.at
      && |e.parents| == |t.named| && forall j :: 0 <= j < |t.named| ==> e.parents[j] == t.named[j].code
  {
    hide FlowRuns.Run, Engine.Handed;
    LastState(s, scale, codes, run, draws);
    EmittedInOrder(s, scale, codes, run, draws, emitted, |emitted|);
    assert Engine.Tells(emitted[k], run[|emitted|].told[k]);
  }

  lemma EmittedIsStored(r: Record, e: Engine.Emission, t: Flow.Told)
    requires Holds(r, e) && Engine.Tells(e, t)
    ensures Stored(r, t)
  {}

  lemma LastState(s: Preset, scale: Scale, codes: (int, nat) -> string, run: seq<Flow.FlowState>, draws: seq<Flow.Draw>)
    requires FlowRuns.Run(s, scale, codes, run, draws)
    ensures |run| == |draws| + 1
  {}

  /** However many of the first emissions are kept, the log is about the events told. */
  lemma KeptIsLog(s: Preset, scale: Scale, codes: (int, nat) -> string, run: seq<Flow.FlowState>,
                  draws: seq<Flow.Draw>, emitted: seq<Engine.Emission>, records: seq<Record>)
    requires Emits(s, scale, codes, run, draws, emitted) && Keeps(records, emitted)
    ensures Log(records, run[|emitted|].told)
  {
    hide FlowRuns.Run, Holds, Engine.Tells, Stored, Engine.Handed;
    var n := |emitted|;
    LastState(s, scale, codes, run, draws);
    EmittedInOrder(s, scale, codes, run, draws, emitted, n);
    forall i: nat | i < |records| ensures Stored(records[i], run[n].told[i]) {
      EmittedIsStored(records[i], emitted[i], run[n].told[i]);
    }
  }

  lemma LogAt(records: seq<Record>, told: seq<Flow.Told>, i: nat)
    requires Log(records, told) && i < |records|
    ensures i < |told| && records[i].event.lot == told[i].lot.code
  {
    assert Stored(records[i], told[i]);
  }

  lemma NamesItsParent(r: Record, t: Flow.Told, parent: string) returns (k: nat)
    requires Stored(r, t) && Names(r, parent)
    ensures k < |t.named| && t.named[k].code == parent
  {
    hide Names;
    assert parent in Flow.Codes(t.named);
    k :| k < |t.named| && Flow.Codes(t.named)[k] == parent;
  }

  /** Every parent a record names is its own lot or has an earlier record. */
  lemma NoDanglingLink(s: Preset, codes: (int, nat) -> string, f: Flow.FlowState, records: seq<Record>, i: nat, parent: string)
    requires Flow.Good(s, codes, f) && Log(records, f.told) && i < |records| && Names(records[i], parent)
    ensures parent == records[i].event.lot || exists j: nat :: j < i && records[j].event.lot == parent
  {
    hide Names, Flow.Everything;
    var k := NamesItsParent(records[i], f.told[i], parent);
    assert Flow.SoundTold(f.minted, f.told, i);
    var lot := f.told[i].named[k];
    if lot != f.told[i].lot {
      assert Flow.Recorded(f.told, i, lot);
      var j: nat :| j < i && f.told[j].lot == lot;
      assert Stored(records[j], f.told[j]);
    }
  }

  /** A link between different lots leads from one made earlier to one made later. */
  lemma LinkClimbs(s: Preset, codes: (int, nat) -> string, f: Flow.FlowState, records: seq<Record>, i: nat,
                   parent: string, child: string) returns (a: Flow.Lot, b: Flow.Lot)
    requires Flow.Good(s, codes, f) && Log(records, f.told) && i < |records| && LinkedBy(records, i, parent, child)
    ensures a in f.minted && b in f.minted && a.code == parent && b.code == child && a.serial < b.serial
  {
    hide Names, Flow.Everything;
    var k := NamesItsParent(records[i], f.told[i], parent);
    assert Flow.SoundTold(f.minted, f.told, i);
    a, b := f.told[i].named[k], f.told[i].lot;
  }

  ghost predicate ParentOf(records: seq<Record>, parent: string, child: string) {
    exists i: nat :: i < |records| && LinkedBy(records, i, parent, child)
  }

  ghost predicate DownAt(records: seq<Record>, p: seq<string>, n: nat)
    requires n + 1 < |p|
  {
    ParentOf(records, p[n], p[n + 1])
  }

  /** A walk from parent to child to grandchild and so on. */
  ghost predicate Descends(records: seq<Record>, p: seq<string>) {
    forall n: nat :: n + 1 < |p| ==> DownAt(records, p, n)
  }

  lemma SameCode(s: Preset, codes: (int, nat) -> string, f: Flow.FlowState, a: Flow.Lot, b: Flow.Lot)
    requires Flow.Good(s, codes, f) && Flow.CodesDiffer(codes) && a in f.minted && b in f.minted && a.code == b.code
    ensures a == b
  {
    hide Flow.Everything;
    FlowRuns.MintedAt(codes, f.minted, a);
    FlowRuns.MintedAt(codes, f.minted, b);
    assert Flow.SoundLot(codes, f.minted, a.serial - 1) && Flow.SoundLot(codes, f.minted, b.serial - 1);
  }

  lemma {:induction false} DescentClimbs(s: Preset, codes: (int, nat) -> string, f: Flow.FlowState, records: seq<Record>,
                                         p: seq<string>, n: nat) returns (a: Flow.Lot, b: Flow.Lot)
    requires Flow.Good(s, codes, f) && Flow.CodesDiffer(codes) && Log(records, f.told)
    requires Descends(records, p) && 1 <= n < |p|
    ensures a in f.minted && b in f.minted && a.code == p[0] && b.code == p[n] && a.serial < b.serial
  {
    hide Flow.Good, LinkedBy, Flow.CodesDiffer, Log;
    assert DownAt(records, p, n - 1);
    var i: nat :| i < |records| && LinkedBy(records, i, p[n - 1], p[n]);
    var c;
    c, b := LinkClimbs(s, codes, f, records, i, p[n - 1], p[n]);
    if n == 1 {
      a := c;
    } else {
      var e;
      a, e := DescentClimbs(s, codes, f, records, p, n - 1);
      SameCode(s, codes, f, c, e);
    }
  }

  /** So no walk down the links of an engine's log ever returns to where it began. */
  lemma NoCycle(s: Preset, codes: (int, nat) -> string, f: Flow.FlowState, records: seq<Record>, p: seq<string>)
    requires Flow.Good(s, codes, f) && Flow.CodesDiffer(codes) && Log(records, f.told)
    requires Descends(records, p) && |p| >= 2
    ensures p[0] != p[|p| - 1]
  {
    hide Flow.Good, Flow.CodesDiffer, Log, Descends;
    var a, b := DescentClimbs(s, codes, f, records, p, |p| - 1);
    if p[0] == p[|p| - 1] {
      SameCode(s, codes, f, a, b);
    }
  }

  /** And every link of such a log is drawn: its source has a record. */
  lemma EveryLinkIsReal(s: Preset, codes: (int, nat) -> string, f: Flow.FlowState, records: seq<Record>,
                        lot: string, r: Record, source: string)
    requires Flow.Good(s, codes, f) && Log(records, f.told)
    requires r in Lineage.LineageOf(records, lot) && Names(r, source) && source != r.event.lot
    ensures Lineage.RealLink(records, lot, r, source)
  {
    hide Flow.Good, Log, Names, Lineage.LineageOf;
    Lineage.LineageIsComponent(records, lot, r);
    var i: nat :| i < |records| && records[i] == r;
    NoDanglingLink(s, codes, f, records, i, source);
    var j: nat :| j < i && records[j].event.lot == source;
    assert records[j] in records;
  }

  /** Over any run: the records stored of the first so many emissions have a lineage without a
      dangling link and without a cycle. */
  lemma RunHasSoundLineage(s: Preset, scale: Scale, codes: (int, nat) -> string, run: seq<Flow.FlowState>,
                           draws: seq<Flow.Draw>, emitted: seq<Engine.Emission>, records: seq<Record>, p: seq<string>)
    requires Flow.CodesDiffer(codes) && Emits(s, scale, codes, run, draws, emitted) && Keeps(records, emitted)
    ensures forall i, parent :: 0 <= i < |records| && Names(records[i], parent) ==>
      parent == records[i].event.lot || exists j: nat :: j < i && records[j].event.lot == parent
    ensures Descends(records, p) && |p| >= 2 ==> p[0] != p[|p| - 1]
  {
    hide Flow.Good, Flow.CodesDiffer, Log, Descends, WellFormed, FlowRuns.Run, Names, Keeps, Engine.Handed;
    var n := |emitted|;
    LastState(s, scale, codes, run, draws);
    KeptIsLog(s, scale, codes, run, draws, emitted, records);
    FlowRuns.RunStaysGood(s, scale, codes, run, draws, n);
    forall i, parent | 0 <= i < |records| && Names(records[i], parent)
      ensures parent == records[i].event.lot || exists j: nat :: j < i && records[j].event.lot == parent
    {
      NoDanglingLink(s, codes, run[n], records, i, parent);
    }
    if Descends(records, p) && |p| >= 2 {
      NoCycle(s, codes, run[n], records, p);
    }
  }

  // ------------------------------------------------------------ and nothing is cut off

  lemma NamedIsLinked(records: seq<Record>, told: seq<Flow.Told>, i: nat, k: nat)
    requires Log(records, told) && i < |records| && k < |told[i].named|
    ensures Connected(records, records[i].event.lot, told[i].named[k].code)
  {
    hide Names, StepAt;
    var lot, parent := records[i].event.lot, told[i].named[k].code;
    assert Stored(records[i], told[i]) && Flow.Codes(told[i].named)[k] == parent;
    ConnectedSelf(records, lot);
    if parent != lot {
      assert LinkedBy(records, i, parent, lot);
      ConnectedStep(records, lot, lot, parent);
    }
  }

  lemma NamedShareLineage(records: seq<Record>, told: seq<Flow.Told>, i: nat, k: nat)
    requires Log(records, told) && i < |records| && k < |told[i].named|
    ensures var lot, parent := records[i].event.lot, told[i].named[k].code;
      && Connected(records, lot, parent)
      && Lineage.LineageOf(records, parent) == Lineage.LineageOf(records, lot)
      && forall r :: r in records && (r.event.lot == lot || r.event.lot == parent) ==> r in Lineage.LineageOf(records, lot)
  {
    hide Log, Names, Connected, Lineage.LineageOf;
    LogAt(records, told, i);
    NamedIsLinked(records, told, i, k);
    var lot, parent := records[i].event.lot, told[i].named[k].code;
    ConnectedSelf(records, lot);
    Lineage.LineageAgrees(records, lot, parent);
    forall r | r in records && (r.event.lot == lot || r.event.lot == parent) ensures r in Lineage.LineageOf(records, lot) {
      Lineage.LineageIsComponent(records, lot, r);
    }
  }

  /** Over any run: whatever lot an event names, a shipment's parents and a transformation's
      inputs alike, is connected to the event's own lot, and all their records are in the
      lineage of either. */
  lemma NamedLotsShareLineage(s: Preset, scale: Scale, codes: (int, nat) -> string, run: seq<Flow.FlowState>,
                              draws: seq<Flow.Draw>, emitted: seq<Engine.Emission>, records: seq<Record>, i: nat, k: nat)
    requires Emits(s, scale, codes, run, draws, emitted) && Keeps(records, emitted)
    requires i < |records|
    ensures var told := run[|emitted|].told; var lot := records[i].event.lot;
      && i < |told| && lot == told[i].lot.code
      && (k < |told[i].named| ==>
            var parent := told[i].named[k].code;
            && Connected(records, lot, parent)
            && Lineage.LineageOf(records, parent) == Lineage.LineageOf(records, lot)
            && forall r :: r in records && (r.event.lot == lot || r.event.lot == parent) ==> r in Lineage.LineageOf(records, lot))
  {
    hide Log, Names, Keeps, FlowRuns.Run, Engine.Handed, Connected, Lineage.LineageOf;
    LastState(s, scale, codes, run, draws);
    KeptIsLog(s, scale, codes, run, draws, emitted, records);
    var told := run[|emitted|].told;
    LogAt(records, told, i);
    if k < |told[i].named| {
      NamedShareLineage(records, told, i, k);
    }
  }
}
