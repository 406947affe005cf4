/**
 The parent-link graph of a list of records, and what it means for two lots to be connected.
 */
module Graph {
  import opened Common
  import opened Records

  function SetOf(s: seq<string>): set<string> {
    set x | x in s
  }

  /** The record names that lot as a parent: in its own list, as the source lot it was packed
      from, or among the input lots of a transformation. */
  predicate Names(r: Record, lot: string) {
    lot in r.parents || r.event.sourceLot == Some(lot) || lot in r.event.inputLots
  }

  /** `_parent_lot_codes` collects exactly these. */
  function ParentsOf(r: Record): (parents: set<string>)
    ensures forall lot :: lot in parents <==> Names(r, lot)
  {
    SetOf(r.parents)
    + (if r.event.sourceLot.Some? then {r.event.sourceLot.value} else {})
    + SetOf(r.event.inputLots)
  }

  /** Record `i` links `parent` to its own lot; a lot's link to itself is ignored. */
  predicate LinkedBy(records: seq<Record>, i: nat, parent: string, child: string)
    requires i < |records|
  {
    records[i].event.lot == child && parent != child && Names(records[i], parent)
  }

  ghost predicate Linked(records: seq<Record>, x: string, y: string) {
    exists i: nat :: i < |records| && (LinkedBy(records, i, x, y) || LinkedBy(records, i, y, x))
  }

  ghost predicate StepAt(records: seq<Record>, p: seq<string>, i: nat)
    requires i + 1 < |p|
  {
    Linked(records, p[i], p[i + 1])
  }

  ghost predicate Path(records: seq<Record>, p: seq<string>, x: string, y: string) {
    |p| > 0 && p[0] == x && p[|p| - 1] == y && forall i: nat :: i + 1 < |p| ==> StepAt(records, p, i)
  }

  /** Some walk along links, either way, leads from one lot to the other. */
  ghost predicate Connected(records: seq<Record>, x: string, y: string) {
    exists p :: Path(records, p, x, y)
  }

  lemma ConnectedSelf(records: seq<Record>, x: string)
    ensures Connected(records, x, x)
  {
    assert Path(records, [x], x, x);
  }

  lemma PathSnoc(records: seq<Record>, p: seq<string>, x: string, y: string, z: string)
    requires Path(records, p, x, y) && Linked(records, y, z)
    ensures Path(records, p + [z], x, z)
  {
    hide Linked;
    forall i: nat | i + 1 < |p + [z]| ensures StepAt(records, p + [z], i) {
      if i + 1 < |p| {
        assert StepAt(records, p, i);
      }
    }
  }

  lemma ConnectedStep(records: seq<Record>, x: string, y: string, z: string)
    requires Connected(records, x, y) && Linked(records, y, z)
    ensures Connected(records, x, z)
  {
    hide Linked, Path;
    var p :| Path(records, p, x, y);
    PathSnoc(records, p, x, y, z);
  }

  lemma {:induction false} PathJoins(records: seq<Record>, p: seq<string>, x: string, y: string, z: string)
    requires Connected(records, x, y) && Path(records, p, y, z)
    ensures Connected(records, x, z)
    decreases |p|
  {
    hide Linked, Connected;
    if |p| == 1 {
    } else {
      var front := p[..|p| - 1];
      forall i: nat | i + 1 < |front| ensures StepAt(records, front, i) {
        assert StepAt(records, p, i);
      }
      PathJoins(records, front, x, y, front[|front| - 1]);
      assert StepAt(records, p, |p| - 2);
      ConnectedStep(records, x, front[|front| - 1], z);
    }
  }

  lemma ConnectedJoins(records: seq<Record>, x: string, y: string, z: string)
    requires Connected(records, x, y) && Connected(records, y, z)
    ensures Connected(records, x, z)
  {
    hide Path;
    var p :| Path(records, p, y, z);
    PathJoins(records, p, x, y, z);
  }

  lemma ConnectedBack(records: seq<Record>, x: string, y: string)
    requires Connected(records, x, y)
    ensures Connected(records, y, x)
  {
    var p :| Path(records, p, x, y);
    var r := Reverse(p);
    forall i: nat | i + 1 < |r| ensures StepAt(records, r, i) {
      assert StepAt(records, p, |p| - 2 - i);
    }
    assert Path(records, r, y, x);
  }

  // ------------------------------------------------------------ closed sets of lots

  ghost predicate Closed(records: seq<Record>, lots: set<string>) {
    forall x, y :: x in lots && Linked(records, x, y) ==> y in lots
  }

  lemma {:induction false} PathStaysInside(records: seq<Record>, lots: set<string>, p: seq<string>, x: string, y: string)
    requires Closed(records, lots) && x in lots && Path(records, p, x, y)
    ensures y in lots
    decreases |p|
  {
    hide Linked;
    if |p| == 1 {
    } else {
      var front := p[..|p| - 1];
      forall i: nat | i + 1 < |front| ensures StepAt(records, front, i) {
        assert StepAt(records, p, i);
      }
      PathStaysInside(records, lots, front, x, front[|front| - 1]);
      assert StepAt(records, p, |p| - 2);
    }
  }

  /** Every lot a record is about or names as a parent. */
  function LotsNamed(records: seq<Record>, n: nat): (lots: set<string>)
    requires n <= |records|
  {
    if n == 0 then {}
    else LotsNamed(records, n - 1) + {records[n - 1].event.lot} + ParentsOf(records[n - 1])
  }

  lemma {:induction false} NamedAt(records: seq<Record>, n: nat, i: nat)
    requires i < n <= |records|
    ensures records[i].event.lot in LotsNamed(records, n) && ParentsOf(records[i]) <= LotsNamed(records, n)
  {
    if i == n - 1 {
    } else {
      NamedAt(records, n - 1, i);
    }
  }

  lemma LinkedIsNamed(records: seq<Record>, x: string, y: string)
    requires Linked(records, x, y)
    ensures y in LotsNamed(records, |records|)
  {
    hide ParentsOf, Names, LotsNamed;
    var i: nat :| i < |records| && (LinkedBy(records, i, x, y) || LinkedBy(records, i, y, x));
    NamedAt(records, |records|, i);
  }

  /** The connected component of a lot. */
  ghost function Component(records: seq<Record>, lot: string): set<string> {
    set x | x in LotsNamed(records, |records|) + {lot} && Connected(records, lot, x)
  }

  lemma ComponentIsConnected(records: seq<Record>, lot: string, x: string)
    ensures x in Component(records, lot) <==> Connected(records, lot, x)
  {
    hide Linked;
    if Connected(records, lot, x) {
      var p :| Path(records, p, lot, x);
      if |p| > 1 {
        assert StepAt(records, p, |p| - 2);
        LinkedIsNamed(records, p[|p| - 2], x);
      }
    }
  }

  /** The component of any lot of a component is the same component. */
  lemma ComponentsAgree(records: seq<Record>, x: string, y: string)
    requires Connected(records, x, y)
    ensures Component(records, x) == Component(records, y)
  {
    hide Connected;
    ConnectedBack(records, x, y);
    forall z ensures z in Component(records, x) <==> z in Component(records, y) {
      ComponentIsConnected(records, x, z);
      ComponentIsConnected(records, y, z);
      if Connected(records, x, z) { ConnectedJoins(records, y, x, z); }
      if Connected(records, y, z) { ConnectedJoins(records, x, y, z); }
    }
  }
}
