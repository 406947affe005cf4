/**
 `EventStore.lineage` and `lineage_edges`: a worklist search of the parent-link graph, and
 the links drawn between the records it finds.
 */
module Lineage {
  import opened Common
  import opened Records
  import opened Sorting
  import opened Graph

  // ------------------------------------------------------------------ the search

  function Selected(records: seq<Record>, lots: set<string>): (r: seq<Record>)
    ensures forall x :: x in r <==> x in records && x.event.lot in lots
  {
    if records == [] then []
    else
      var front, last := records[..|records| - 1], records[|records| - 1];
      assert records == front + [last];
      Selected(front, lots) + if last.event.lot in lots then [last] else []
  }

  /** What a lineage query is for: every record of the lot's component, by time. */
  ghost function LineageOf(records: seq<Record>, lot: string): seq<Record> {
    Sorted(Selected(records, Component(records, lot)), ByTime)
  }

  function Adjacent(graph: map<string, set<string>>, x: string): set<string> {
    if x in graph then graph[x] else {}
  }

  /** The parents the first `n` records give a lot, and the children they give it. */
  function Parents(records: seq<Record>, n: nat, x: string): set<string>
    requires n <= |records|
  {
    if n == 0 then {}
    else Parents(records, n - 1, x) + if records[n - 1].event.lot == x then ParentsOf(records[n - 1]) - {x} else {}
  }

  function Children(records: seq<Record>, n: nat, x: string): set<string>
    requires n <= |records|
  {
    if n == 0 then {}
    else
      var child := records[n - 1].event.lot;
      Children(records, n - 1, x) + if x != child && x in ParentsOf(records[n - 1]) then {child} else {}
  }

  ghost predicate Drawn(up: map<string, set<string>>, down: map<string, set<string>>, records: seq<Record>, n: nat)
    requires n <= |records|
  {
    && (forall x :: Adjacent(up, x) == Parents(records, n, x))
    && (forall x :: Adjacent(down, x) == Children(records, n, x))
  }

  predicate UpAt(up: map<string, set<string>>, up': map<string, set<string>>, child: string, done: set<string>, x: string) {
    Adjacent(up', x) == Adjacent(up, x) + if x == child then done - {child} else {}
  }

  predicate DownAt(down: map<string, set<string>>, down': map<string, set<string>>, child: string, done: set<string>, x: string) {
    Adjacent(down', x) == Adjacent(down, x) + if x != child && x in done then {child} else {}
  }

  /** The maps once the links from `done` to the record's own lot are in. */
  ghost predicate LinksDrawn(up: map<string, set<string>>, down: map<string, set<string>>,
                             up': map<string, set<string>>, down': map<string, set<string>>,
                             child: string, done: set<string>)
  {
    (forall x :: UpAt(up, up', child, done, x)) && (forall x :: DownAt(down, down', child, done, x))
  }

  lemma OneUp(up: map<string, set<string>>, up': map<string, set<string>>,
                child: string, done: set<string>, parent: string, x: string)
    requires UpAt(up, up', child, done, x) && UpAt(up, up', child, done, child)
    ensures parent == child ==> UpAt(up, up', child, done + {parent}, x)
    ensures parent != child ==> UpAt(up, up'[child := Adjacent(up', child) + {parent}], child, done + {parent}, x)
  {}

  lemma OneDown(down: map<string, set<string>>, down': map<string, set<string>>,
                child: string, done: set<string>, parent: string, x: string)
    requires DownAt(down, down', child, done, x) && DownAt(down, down', child, done, parent)
    ensures parent == child ==> DownAt(down, down', child, done + {parent}, x)
    ensures parent != child ==> DownAt(down, down'[parent := Adjacent(down', parent) + {child}], child, done + {parent}, x)
  {}

  lemma OneLinkDrawn(up: map<string, set<string>>, down: map<string, set<string>>,
                     up': map<string, set<string>>, down': map<string, set<string>>,
                     child: string, done: set<string>, parent: string)
    requires LinksDrawn(up, down, up', down', child, done)
    ensures parent == child ==> LinksDrawn(up, down, up', down', child, done + {parent})
    ensures parent != child ==>
      LinksDrawn(up, down, up'[child := Adjacent(up', child) + {parent}],
                 down'[parent := Adjacent(down', parent) + {child}], child, done + {parent})
  {
    hide UpAt, DownAt;
    if parent == child {
      forall x ensures UpAt(up, up', child, done + {parent}, x) {
        OneUp(up, up', child, done, parent, x);
      }
      forall x ensures DownAt(down, down', child, done + {parent}, x) {
        OneDown(down, down', child, done, parent, x);
      }
    } else {
      var up'' := up'[child := Adjacent(up', child) + {parent}];
      var down'' := down'[parent := Adjacent(down', parent) + {child}];
      forall x ensures UpAt(up, up'', child, done + {parent}, x) {
        OneUp(up, up', child, done, parent, x);
      }
      forall x ensures DownAt(down, down'', child, done + {parent}, x) {
        OneDown(down, down', child, done, parent, x);
      }
    }
  }

  lemma NoLinkDrawn(up: map<string, set<string>>, down: map<string, set<string>>, child: string)
    ensures LinksDrawn(up, down, up[child := Adjacent(up, child)], down, child, {})
  {}

  lemma RecordDrawnAt(up: map<string, set<string>>, down: map<string, set<string>>,
                      up': map<string, set<string>>, down': map<string, set<string>>, records: seq<Record>, n: nat, x: string)
    requires n < |records|
    requires UpAt(up, up', records[n].event.lot, ParentsOf(records[n]), x)
    requires DownAt(down, down', records[n].event.lot, ParentsOf(records[n]), x)
    requires Adjacent(up, x) == Parents(records, n, x) && Adjacent(down, x) == Children(records, n, x)
    ensures Adjacent(up', x) == Parents(records, n + 1, x) && Adjacent(down', x) == Children(records, n + 1, x)
  {
    hide ParentsOf, Names;
    var child := records[n].event.lot;
    assert Parents(records, n + 1, x) == Parents(records, n, x) + if child == x then ParentsOf(records[n]) - {x} else {};
    assert Children(records, n + 1, x)
      == Children(records, n, x) + if x != child && x in ParentsOf(records[n]) then {child} else {};
  }

  lemma RecordDrawn(up: map<string, set<string>>, down: map<string, set<string>>,
                    up': map<string, set<string>>, down': map<string, set<string>>, records: seq<Record>, n: nat)
    requires n < |records| && Drawn(up, down, records, n)
    requires LinksDrawn(up, down, up', down', records[n].event.lot, ParentsOf(records[n]))
    ensures Drawn(up', down', records, n + 1)
  {
    hide ParentsOf, Names, Adjacent, UpAt, DownAt, Parents, Children;
    forall x
      ensures Adjacent(up', x) == Parents(records, n + 1, x) && Adjacent(down', x) == Children(records, n + 1, x)
    {
      RecordDrawnAt(up, down, up', down', records, n, x);
    }
  }

  /** One record's links. */
  method DrawLinks(up: map<string, set<string>>, down: map<string, set<string>>, records: seq<Record>, n: nat)
    returns (up': map<string, set<string>>, down': map<string, set<string>>)
    requires n < |records| && Drawn(up, down, records, n)
    ensures Drawn(up', down', records, n + 1)
  {
    hide ParentsOf, Names, Drawn, LinksDrawn;
    var child := records[n].event.lot;
    up', down' := up[child := Adjacent(up, child)], down;
    var todo := ParentsOf(records[n]);
    ghost var done := {};
    NoLinkDrawn(up, down, child);
    while todo != {}
      invariant done + todo == ParentsOf(records[n])
      invariant LinksDrawn(up, down, up', down', child, done)
      decreases todo
    {
      var parent :| parent in todo;
      todo := todo - {parent};
      OneLinkDrawn(up, down, up', down', child, done, parent);
      done := done + {parent};
      if parent != child {
        up' := up'[child := Adjacent(up', child) + {parent}];
        down' := down'[parent := Adjacent(down', parent) + {child}];
      }
    }
    assert done == ParentsOf(records[n]);
    RecordDrawn(up, down, up', down', records, n);
  }

  method DrawGraph(records: seq<Record>) returns (up: map<string, set<string>>, down: map<string, set<string>>)
    ensures Drawn(up, down, records, |records|)
  {
    up, down := map[], map[];
    for i := 0 to |records|
      invariant Drawn(up, down, records, i)
    {
      up, down := DrawLinks(up, down, records, i);
    }
  }

  lemma {:induction false} ParentsAreLinks(records: seq<Record>, n: nat, x: string, y: string)
    requires n <= |records|
    ensures y in Parents(records, n, x) <==> exists i: nat :: i < n && LinkedBy(records, i, y, x)
    ensures y in Children(records, n, x) <==> exists i: nat :: i < n && LinkedBy(records, i, x, y)
  {
    hide ParentsOf, Names;
    if n == 0 {
    } else {
      ParentsAreLinks(records, n - 1, x, y);
      assert (LinkedBy(records, n - 1, y, x) || LinkedBy(records, n - 1, x, y)) ==> n - 1 < n;
    }
  }

  lemma AdjacentIsLinked(records: seq<Record>, x: string, y: string)
    ensures y in Parents(records, |records|, x) + Children(records, |records|, x) <==> Linked(records, x, y)
  {
    hide LinkedBy, Parents, Children;
    ParentsAreLinks(records, |records|, x, y);
  }

  /** Every lot that was looked at has its neighbours among the lots found. */
  ghost predicate Explored(records: seq<Record>, found: set<string>, pending: seq<string>) {
    forall x, y :: x in found && x !in pending && Linked(records, x, y) ==> y in found
  }

  ghost predicate OnlyConnected(records: seq<Record>, lot: string, found: set<string>) {
    forall x :: x in found ==> Connected(records, lot, x) && x in LotsNamed(records, |records|) + {lot}
  }

  lemma NeighbourIsConnected(records: seq<Record>, lot: string, found: set<string>, x: string, y: string)
    requires OnlyConnected(records, lot, found) && x in found && Linked(records, x, y)
    ensures OnlyConnected(records, lot, found + {y})
  {
    hide Connected, Linked, LotsNamed;
    ConnectedStep(records, lot, x, y);
    LinkedIsNamed(records, x, y);
  }

  /** The neighbours of one lot, added to what was found and what is pending. */
  method Visit(records: seq<Record>, lot: string, x: string, neighbours: set<string>, found: set<string>, pending: seq<string>)
    returns (found': set<string>, pending': seq<string>)
    requires forall y :: y in neighbours <==> Linked(records, x, y)
    requires x in found && lot in found && OnlyConnected(records, lot, found)
    requires forall y :: y in pending ==> y in found
    requires forall y, z :: y in found && y != x && y !in pending && Linked(records, y, z) ==> z in found
    ensures lot in found' && OnlyConnected(records, lot, found')
    ensures forall y :: y in pending' ==> y in found'
    ensures Explored(records, found', pending')
    ensures found <= found' && (found' == found ==> pending' == pending)
  {
    hide Linked, OnlyConnected;
    found', pending' := found, pending;
    var todo := neighbours;
    while todo != {}
      invariant todo <= neighbours && neighbours - todo <= found'
      invariant found <= found' && OnlyConnected(records, lot, found')
      invariant forall y :: y in pending' ==> y in found'
      invariant forall y :: y in pending ==> y in pending'
      invariant forall y :: y in found' && y !in found ==> y in pending'
      invariant found' == found ==> pending' == pending
      decreases todo
    {
      var y :| y in todo;
      todo := todo - {y};
      if y !in found' {
        NeighbourIsConnected(records, lot, found', x, y);
        found' := found' + {y};
        pending' := pending' + [y];
        assert y in pending';
      }
    }
    forall y, z | y in found' && y !in pending' && Linked(records, y, z) ensures z in found' {
      assert y in found;
    }
  }

  lemma ClosedIsComponent(records: seq<Record>, lot: string, found: set<string>)
    requires lot in found && OnlyConnected(records, lot, found) && Explored(records, found, [])
    ensures found == Component(records, lot)
  {
    hide Linked, Path, LotsNamed;
    assert Closed(records, found);
    forall x ensures x in found <==> x in Component(records, lot) {
      ComponentIsConnected(records, lot, x);
      if Connected(records, lot, x) {
        var p :| Path(records, p, lot, x);
        PathStaysInside(records, found, p, lot, x);
      }
    }
  }

  method FindComponent(records: seq<Record>, lot: string) returns (found: set<string>)
    ensures found == Component(records, lot)
  {
    hide Linked, Component, Parents, Children, Connected;
    var up, down := DrawGraph(records);
    found := {lot};
    var pending := [lot];
    ghost var lots := LotsNamed(records, |records|) + {lot};
    ConnectedSelf(records, lot);
    while pending != []
      invariant lot in found && OnlyConnected(records, lot, found)
      invariant forall y :: y in pending ==> y in found
      invariant Explored(records, found, pending)
      invariant found <= lots
      decreases lots - found, |pending|
    {
      var x := pending[|pending| - 1];
      var rest := pending[..|pending| - 1];
      assert pending == rest + [x];
      var neighbours := Adjacent(up, x) + Adjacent(down, x);
      forall y ensures y in neighbours <==> Linked(records, x, y) {
        AdjacentIsLinked(records, x, y);
      }
      found, pending := Visit(records, lot, x, neighbours, found, rest);
    }
    ClosedIsComponent(records, lot, found);
  }

  /** The search returns exactly the records of the lot's component, by time. */
  method FindLineage(records: seq<Record>, lot: string) returns (matched: seq<Record>)
    ensures matched == LineageOf(records, lot)
  {
    var related := FindComponent(records, lot);
    matched := Sorted(Selected(records, related), ByTime);
  }

  // ------------------------------------------------------------------ what it means

  lemma {:induction false} SelectedCounts(records: seq<Record>, lots: set<string>, r: Record)
    ensures multiset(Selected(records, lots))[r] == if r.event.lot in lots then multiset(records)[r] else 0
  {
    if records == [] {
    } else {
      SelectedCounts(records[..|records| - 1], lots, r);
      assert records == records[..|records| - 1] + [records[|records| - 1]];
    }
  }

  /** A record is in the lineage of a lot exactly if its own lot is connected to it, as often
      as it is in the log. */
  lemma LineageIsComponent(records: seq<Record>, lot: string, r: Record)
    ensures r in LineageOf(records, lot) <==> r in records && Connected(records, lot, r.event.lot)
    ensures multiset(LineageOf(records, lot))[r]
      == if Connected(records, lot, r.event.lot) then multiset(records)[r] else 0
    ensures var found := LineageOf(records, lot);
      forall i, j :: 0 <= i < j < |found| ==> found[i].event.timestamp <= found[j].event.timestamp
  {
    hide Connected, Component, Sorted;
    var s := Selected(records, Component(records, lot));
    SortedMembers(s, ByTime, r);
    SortedPermutes(s, ByTime);
    SelectedCounts(records, Component(records, lot), r);
    ComponentIsConnected(records, lot, r.event.lot);
    SortedIsStable(s, ByTime);
    var found := LineageOf(records, lot);
    forall i, j | 0 <= i < j < |found| ensures found[i].event.timestamp <= found[j].event.timestamp {
      assert AtMost(ByTime(found[i]), ByTime(found[j]));
    }
  }

  /** Whichever lot of a component is asked about, the answer is the same list. */
  lemma LineageAgrees(records: seq<Record>, x: string, y: string)
    requires Connected(records, x, y)
    ensures LineageOf(records, x) == LineageOf(records, y)
  {
    ComponentsAgree(records, x, y);
  }

  // ------------------------------------------------------------------ edges

  datatype Edge = Edge(source: string, target: string, cte: Cte, number: int)

  datatype EdgeKey = EdgeKey(source: string, target: string, number: int)

  function KeyOf(e: Edge): EdgeKey {
    EdgeKey(e.source, e.target, e.number)
  }

  function Own(records: seq<Record>): set<string> {
    set i | 0 <= i < |records| :: records[i].event.lot
  }

  /** Record `i` draws a link from a lot that has a record in the list. */
  predicate Draws(records: seq<Record>, i: nat, source: string)
    requires i < |records|
  {
    LinkedBy(records, i, source, records[i].event.lot) && source in Own(records)
  }

  ghost predicate Shown(edges: seq<Edge>, key: EdgeKey) {
    exists k :: 0 <= k < |edges| && KeyOf(edges[k]) == key
  }

  function DrawnKey(records: seq<Record>, i: nat, source: string): EdgeKey
    requires i < |records|
  {
    EdgeKey(source, records[i].event.lot, records[i].seqNo)
  }

  ghost predicate Comes(records: seq<Record>, e: Edge, i: nat)
    requires i < |records|
  {
    Draws(records, i, e.source) && e == Edge(e.source, records[i].event.lot, records[i].event.cte, records[i].seqNo)
  }

  ghost predicate Justified(records: seq<Record>, n: nat, e: Edge)
    requires n <= |records|
  {
    exists i: nat :: i < n && Comes(records, e, i)
  }

  ghost predicate NoRepeats(edges: seq<Edge>) {
    forall k, l :: 0 <= k < l < |edges| ==> KeyOf(edges[k]) != KeyOf(edges[l])
  }

  /** The edges of the first `n` records, and nothing else, each once. */
  ghost predicate Edges(records: seq<Record>, n: nat, edges: seq<Edge>)
    requires n <= |records|
  {
    && (forall k :: 0 <= k < |edges| ==> Justified(records, n, edges[k]))
    && (forall i: nat, source :: i < n && Draws(records, i, source) ==> Shown(edges, DrawnKey(records, i, source)))
    && NoRepeats(edges)
  }

  lemma NoEdges(records: seq<Record>)
    ensures Edges(records, 0, [])
  {}

  /** What record `n` adds: the links from `done`, its parents in the list looked at so far. */
  ghost predicate EdgesUpto(records: seq<Record>, n: nat, edges: seq<Edge>, done: set<string>)
    requires n < |records|
  {
    && (forall k :: 0 <= k < |edges| ==> Justified(records, n + 1, edges[k]))
    && (forall i: nat, source :: i < n && Draws(records, i, source) ==> Shown(edges, DrawnKey(records, i, source)))
    && (forall source :: source in done && Draws(records, n, source) ==> Shown(edges, DrawnKey(records, n, source)))
    && NoRepeats(edges)
  }

  lemma JustifiedLater(records: seq<Record>, n: nat, e: Edge)
    requires n < |records| && Justified(records, n, e)
    ensures Justified(records, n + 1, e)
  {
    hide Comes;
    var i: nat :| i < n && Comes(records, e, i);
    assert i < n + 1;
  }

  lemma EdgesBegin(records: seq<Record>, n: nat, edges: seq<Edge>)
    requires n < |records| && Edges(records, n, edges)
    ensures EdgesUpto(records, n, edges, {})
  {
    hide Justified, Shown, Draws, NoRepeats;
    forall k | 0 <= k < |edges| ensures Justified(records, n + 1, edges[k]) {
      JustifiedLater(records, n, edges[k]);
    }
  }

  lemma EdgesEnd(records: seq<Record>, n: nat, edges: seq<Edge>)
    requires n < |records| && EdgesUpto(records, n, edges, ParentsOf(records[n]))
    ensures Edges(records, n + 1, edges)
  {
    hide Justified, Shown, NoRepeats, ParentsOf, Names, Own;
    forall i: nat, source | i < n + 1 && Draws(records, i, source) ensures Shown(edges, DrawnKey(records, i, source)) {
      if i == n { assert source in ParentsOf(records[n]); }
    }
  }

  lemma ShownSnoc(edges: seq<Edge>, e: Edge, key: EdgeKey)
    ensures Shown(edges + [e], key) <==> Shown(edges, key) || key == KeyOf(e)
  {
    var all := edges + [e];
    assert all[|edges|] == e;
    if Shown(edges, key) {
      var k :| 0 <= k < |edges| && KeyOf(edges[k]) == key;
      assert all[k] == edges[k];
    }
  }

  /** A parent that draws no link, or whose link is already there. */
  lemma EdgeSkipped(records: seq<Record>, n: nat, edges: seq<Edge>, done: set<string>, source: string)
    requires n < |records| && EdgesUpto(records, n, edges, done)
    requires !Draws(records, n, source) || Shown(edges, DrawnKey(records, n, source))
    ensures EdgesUpto(records, n, edges, done + {source})
  {
    hide Justified, Shown, NoRepeats, Draws, DrawnKey;
  }

  lemma NewJustified(records: seq<Record>, n: nat, source: string)
    requires n < |records| && Draws(records, n, source)
    ensures Justified(records, n + 1, Edge(source, records[n].event.lot, records[n].event.cte, records[n].seqNo))
  {
    hide Draws;
    assert Comes(records, Edge(source, records[n].event.lot, records[n].event.cte, records[n].seqNo), n);
  }

  lemma NewDistinct(edges: seq<Edge>, e: Edge)
    requires NoRepeats(edges) && !Shown(edges, KeyOf(e))
    ensures NoRepeats(edges + [e])
  {}

  lemma EdgeAdded(records: seq<Record>, n: nat, edges: seq<Edge>, done: set<string>, source: string)
    requires n < |records| && EdgesUpto(records, n, edges, done)
    requires Draws(records, n, source) && !Shown(edges, DrawnKey(records, n, source))
    ensures var e := Edge(source, records[n].event.lot, records[n].event.cte, records[n].seqNo);
      EdgesUpto(records, n, edges + [e], done + {source})
  {
    var e := Edge(source, records[n].event.lot, records[n].event.cte, records[n].seqNo);
    NewJustified(records, n, source);
    NewDistinct(edges, e);
    hide Justified, Shown, NoRepeats, Draws;
    forall i: nat, other | i < n && Draws(records, i, other) ensures Shown(edges + [e], DrawnKey(records, i, other)) {
      ShownSnoc(edges, e, DrawnKey(records, i, other));
    }
    forall other | other in done + {source} && Draws(records, n, other)
      ensures Shown(edges + [e], DrawnKey(records, n, other))
    {
      ShownSnoc(edges, e, DrawnKey(records, n, other));
    }
  }

  ghost predicate SeenIsShown(seen: set<EdgeKey>, edges: seq<Edge>) {
    forall key :: key in seen <==> Shown(edges, key)
  }

  lemma SeenSnoc(seen: set<EdgeKey>, edges: seq<Edge>, e: Edge)
    requires SeenIsShown(seen, edges)
    ensures SeenIsShown(seen + {KeyOf(e)}, edges + [e])
  {
    hide Shown;
    forall key ensures key in seen + {KeyOf(e)} <==> Shown(edges + [e], key) {
      ShownSnoc(edges, e, key);
    }
  }

  // ------------------------------------------------------------------ their order

  /** Alphabetical order, character by character. */
  predicate Less(a: string, b: string) {
    b != [] && (a == [] || a[0] < b[0] || (a[0] == b[0] && Less(a[1..], b[1..])))
  }

  lemma {:induction false} LessIsTotal(a: string, b: string)
    ensures a == b || Less(a, b) || Less(b, a)
  {
    if a == [] || b == [] {
    } else {
      LessIsTotal(a[1..], b[1..]);
      assert a == [a[0]] + a[1..] && b == [b[0]] + b[1..];
    }
  }

  lemma {:induction false} LessIsTransitive(a: string, b: string, c: string)
    requires Less(a, b) && Less(b, c)
    ensures Less(a, c)
  {
    if a == [] {
    } else {
      if a[0] == b[0] == c[0] {
        LessIsTransitive(a[1..], b[1..], c[1..]);
      }
    }
  }

  /** The first of some codes in alphabetical order. */
  predicate First(todo: set<string>, source: string) {
    source in todo && forall other :: other in todo ==> other == source || Less(source, other)
  }

  lemma {:induction false} FirstExists(todo: set<string>) returns (source: string)
    requires todo != {}
    ensures First(todo, source)
    decreases |todo|
  {
    hide Less;
    var some :| some in todo;
    if todo == {some} {
      source := some;
    } else {
      var rest := todo - {some};
      assert rest != {};
      var best := FirstExists(rest);
      LessIsTotal(some, best);
      if some == best || Less(some, best) {
        source := some;
        forall other | other in todo ensures other == source || Less(source, other) {
          if other != some && other != best {
            LessIsTransitive(some, best, other);
          }
        }
      } else {
        source := best;
      }
    }
  }

  /** One edge comes of an earlier record than the other, or of the same and an earlier source. */
  ghost predicate InTurn(records: seq<Record>, n: nat, a: Edge, b: Edge)
    requires n <= |records|
  {
    exists i: nat, j: nat :: i <= j < n && Comes(records, a, i) && Comes(records, b, j) && (i == j ==> Less(a.source, b.source))
  }

  ghost predicate AllInTurn(records: seq<Record>, n: nat, edges: seq<Edge>)
    requires n <= |records|
  {
    forall k, l :: 0 <= k < l < |edges| ==> InTurn(records, n, edges[k], edges[l])
  }

  /** An edge of an earlier record, or of record `n` from one of the parents looked at. */
  ghost predicate DrawnBy(records: seq<Record>, n: nat, done: set<string>, e: Edge)
    requires n < |records|
  {
    exists i: nat :: i <= n && Comes(records, e, i) && (i == n ==> e.source in done)
  }

  ghost predicate InTurnUpto(records: seq<Record>, n: nat, edges: seq<Edge>, done: set<string>)
    requires n < |records|
  {
    AllInTurn(records, n + 1, edges) && forall k :: 0 <= k < |edges| ==> DrawnBy(records, n, done, edges[k])
  }

  lemma InTurnBegins(records: seq<Record>, n: nat, edges: seq<Edge>)
    requires n < |records| && AllInTurn(records, n, edges) && Edges(records, n, edges)
    ensures InTurnUpto(records, n, edges, {})
  {
    hide Comes, Less, Shown, Draws, NoRepeats;
    forall k, l | 0 <= k < l < |edges| ensures InTurn(records, n + 1, edges[k], edges[l]) {
      assert InTurn(records, n, edges[k], edges[l]);
    }
    forall k | 0 <= k < |edges| ensures DrawnBy(records, n, {}, edges[k]) {
      assert Justified(records, n, edges[k]);
    }
  }

  lemma DrawnByMore(records: seq<Record>, n: nat, done: set<string>, more: set<string>, e: Edge)
    requires n < |records| && DrawnBy(records, n, done, e) && done <= more
    ensures DrawnBy(records, n, more, e)
  {
    hide Comes;
  }

  lemma InTurnSkips(records: seq<Record>, n: nat, edges: seq<Edge>, done: set<string>, source: string)
    requires n < |records| && InTurnUpto(records, n, edges, done)
    ensures InTurnUpto(records, n, edges, done + {source})
  {
    hide DrawnBy, AllInTurn;
    forall k | 0 <= k < |edges| ensures DrawnBy(records, n, done + {source}, edges[k]) {
      DrawnByMore(records, n, done, done + {source}, edges[k]);
    }
  }

  lemma NextInTurn(records: seq<Record>, n: nat, done: set<string>, a: Edge, e: Edge)
    requires n < |records| && DrawnBy(records, n, done, a) && Comes(records, e, n)
    requires forall other :: other in done ==> Less(other, e.source)
    ensures InTurn(records, n + 1, a, e)
  {
    hide Comes, Less;
  }

  lemma InTurnAdds(records: seq<Record>, n: nat, edges: seq<Edge>, done: set<string>, source: string)
    requires n < |records| && InTurnUpto(records, n, edges, done) && Draws(records, n, source)
    requires forall other :: other in done ==> Less(other, source)
    ensures var e := Edge(source, records[n].event.lot, records[n].event.cte, records[n].seqNo);
      InTurnUpto(records, n, edges + [e], done + {source})
  {
    var e := Edge(source, records[n].event.lot, records[n].event.cte, records[n].seqNo);
    assert Comes(records, e, n);
    hide Comes, Less, InTurn, Draws;
    var all := edges + [e];
    forall k, l | 0 <= k < l < |all| ensures InTurn(records, n + 1, all[k], all[l]) {
      if l < |edges| {
        assert InTurn(records, n + 1, edges[k], edges[l]);
      } else {
        NextInTurn(records, n, done, edges[k], e);
      }
    }
    InTurnSkips(records, n, edges, done, source);
    forall k | 0 <= k < |all| ensures DrawnBy(records, n, done + {source}, all[k]) {
      if k < |edges| {
        assert DrawnBy(records, n, done + {source}, edges[k]);
      }
    }
  }

  lemma FirstGoes(todo: set<string>, done: set<string>, source: string)
    requires First(todo, source) && forall x, y :: x in done && y in todo ==> Less(x, y)
    ensures forall x, y :: x in done + {source} && y in todo - {source} ==> Less(x, y)
  {
    hide Less;
  }

  /** One record's edges, its parents taken in alphabetical order. */
  method DrawEdges(records: seq<Record>, n: nat, edges: seq<Edge>, seen: set<EdgeKey>)
    returns (edges': seq<Edge>, seen': set<EdgeKey>)
    requires n < |records| && Edges(records, n, edges) && AllInTurn(records, n, edges) && SeenIsShown(seen, edges)
    ensures Edges(records, n + 1, edges') && AllInTurn(records, n + 1, edges') && SeenIsShown(seen', edges')
  {
    EdgesBegin(records, n, edges);
    InTurnBegins(records, n, edges);
    hide Edges, EdgesUpto, AllInTurn, DrawnBy, Shown, ParentsOf, Names, Own, Less, First;
    edges', seen' := edges, seen;
    var r := records[n];
    var todo := ParentsOf(r);
    ghost var done := {};
    while todo != {}
      invariant done + todo == ParentsOf(r)
      invariant EdgesUpto(records, n, edges', done) && InTurnUpto(records, n, edges', done) && SeenIsShown(seen', edges')
      invariant forall x, y :: x in done && y in todo ==> Less(x, y)
      decreases todo
    {
      ghost var first := FirstExists(todo);
      var source: string :| source in todo && First(todo, source);
      FirstGoes(todo, done, source);
      todo := todo - {source};
      var key := EdgeKey(source, r.event.lot, r.seqNo);
      if source == r.event.lot || source !in Own(records) || key in seen' {
        EdgeSkipped(records, n, edges', done, source);
        InTurnSkips(records, n, edges', done, source);
      } else {
        EdgeAdded(records, n, edges', done, source);
        InTurnAdds(records, n, edges', done, source);
        var e := Edge(source, r.event.lot, r.event.cte, r.seqNo);
        SeenSnoc(seen', edges', e);
        seen' := seen' + {key};
        edges' := edges' + [e];
      }
      done := done + {source};
    }
    assert done == ParentsOf(r);
    EdgesEnd(records, n, edges');
  }

  /** The order the edges' records are taken in: by time, and by number at the same time. */
  lemma EdgesGoByTime(records: seq<Record>, i: nat, j: nat)
    requires i < j < |records|
    ensures var ordered := Sorted(records, ByTimeAndNumber); var a, b := ordered[i], ordered[j];
      && multiset(ordered) == multiset(records)
      && a.event.timestamp <= b.event.timestamp
      && (a.event.timestamp == b.event.timestamp ==> a.seqNo <= b.seqNo)
  {
    SortedIsStable(records, ByTimeAndNumber);
    SortedPermutes(records, ByTimeAndNumber);
    var ordered := Sorted(records, ByTimeAndNumber);
    assert AtMost(ByTimeAndNumber(ordered[i]), ByTimeAndNumber(ordered[j]));
  }

  method LineageEdges(records: seq<Record>) returns (edges: seq<Edge>)
    ensures Edges(Sorted(records, ByTimeAndNumber), |Sorted(records, ByTimeAndNumber)|, edges)
    ensures AllInTurn(Sorted(records, ByTimeAndNumber), |Sorted(records, ByTimeAndNumber)|, edges)
  {
    hide Edges, Sorted, InTurn;
    var ordered := Sorted(records, ByTimeAndNumber);
    NoEdges(ordered);
    edges := [];
    var seen: set<EdgeKey> := {};
    assert SeenIsShown(seen, edges);
    for i := 0 to |ordered|
      invariant Edges(ordered, i, edges) && AllInTurn(ordered, i, edges) && SeenIsShown(seen, edges)
    {
      hide SeenIsShown, AllInTurn;
      edges, seen := DrawEdges(ordered, i, edges, seen);
    }
  }

  /** A link of a record in the lineage to a parent that has any record at all. */
  ghost predicate RealLink(records: seq<Record>, lot: string, r: Record, source: string) {
    && r in LineageOf(records, lot)
    && Names(r, source) && source != r.event.lot
    && exists q :: q in records && q.event.lot == source
  }

  /** Edge `e` is the link that record `r` of the lineage makes from `e.source`. */
  ghost predicate Shows(records: seq<Record>, lot: string, e: Edge, r: Record) {
    RealLink(records, lot, r, e.source) && e == Edge(e.source, r.event.lot, r.event.cte, r.seqNo)
  }

  /** The edge is no invention: some record of the lineage makes it. */
  ghost predicate RealEdge(records: seq<Record>, lot: string, e: Edge) {
    exists r :: Shows(records, lot, e, r)
  }

  lemma ParentIsInLineage(records: seq<Record>, lot: string, r: Record, source: string, q: Record)
    requires r in LineageOf(records, lot) && source in ParentsOf(r) && source != r.event.lot
    requires q in records && q.event.lot == source
    ensures q in LineageOf(records, lot)
  {
    hide LineageOf, Connected, ParentsOf, Names;
    LineageIsComponent(records, lot, r);
    LineageIsComponent(records, lot, q);
    var i: nat :| i < |records| && records[i] == r;
    assert LinkedBy(records, i, source, r.event.lot);
    ConnectedStep(records, lot, r.event.lot, source);
  }

  lemma DrawnByMember(records: seq<Record>, r: Record, q: Record, edges: seq<Edge>)
    requires r in records && q in records && q.event.lot in ParentsOf(r) && q.event.lot != r.event.lot
    requires Edges(Sorted(records, ByTimeAndNumber), |Sorted(records, ByTimeAndNumber)|, edges)
    ensures Shown(edges, EdgeKey(q.event.lot, r.event.lot, r.seqNo))
  {
    hide ParentsOf, Names, Sorted, Shown, Justified;
    var ordered := Sorted(records, ByTimeAndNumber);
    SortedMembers(records, ByTimeAndNumber, r);
    SortedMembers(records, ByTimeAndNumber, q);
    var i: nat :| i < |ordered| && ordered[i] == r;
    var j: nat :| j < |ordered| && ordered[j] == q;
    assert ordered[j].event.lot in Own(ordered);
    assert Draws(ordered, i, q.event.lot);
  }

  lemma JustifiedIsReal(records: seq<Record>, e: Edge) returns (r: Record, q: Record)
    requires Justified(Sorted(records, ByTimeAndNumber), |Sorted(records, ByTimeAndNumber)|, e)
    ensures r in records && q in records && q.event.lot == e.source
    ensures e.source in ParentsOf(r) && e.source != r.event.lot
    ensures e == Edge(e.source, r.event.lot, r.event.cte, r.seqNo)
  {
    hide ParentsOf, Names, Sorted;
    var ordered := Sorted(records, ByTimeAndNumber);
    var i: nat :| i < |ordered| && Comes(ordered, e, i);
    r := ordered[i];
    var j :| 0 <= j < |ordered| && ordered[j].event.lot == e.source;
    q := ordered[j];
    SortedMembers(records, ByTimeAndNumber, r);
    SortedMembers(records, ByTimeAndNumber, q);
  }

  lemma JustifiedInLineage(records: seq<Record>, lot: string, e: Edge)
    requires var ordered := Sorted(LineageOf(records, lot), ByTimeAndNumber); Justified(ordered, |ordered|, e)
    ensures RealEdge(records, lot, e)
  {
    hide LineageOf, Sorted, ParentsOf, Names, Justified;
    var r, q := JustifiedIsReal(LineageOf(records, lot), e);
    LineageIsComponent(records, lot, q);
    assert Shows(records, lot, e, r);
  }

  /** The edges over a lineage keep every link whose source lot has a record anywhere in the
      log, invent none, show each once, and come by record and then by source. */
  method LineageWithEdges(records: seq<Record>, lot: string) returns (matched: seq<Record>, edges: seq<Edge>)
    ensures matched == LineageOf(records, lot)
    ensures forall r, source :: RealLink(records, lot, r, source) ==>
      Shown(edges, EdgeKey(source, r.event.lot, r.seqNo))
    ensures forall k :: 0 <= k < |edges| ==> RealEdge(records, lot, edges[k])
    ensures NoRepeats(edges) && AllInTurn(Sorted(matched, ByTimeAndNumber), |Sorted(matched, ByTimeAndNumber)|, edges)
  {
    hide LineageOf, Sorted, Shown, ParentsOf, Names, Justified, RealEdge, AllInTurn;
    matched := FindLineage(records, lot);
    edges := LineageEdges(matched);
    ghost var n := |Sorted(matched, ByTimeAndNumber)|;
    forall r, source | RealLink(records, lot, r, source)
      ensures Shown(edges, EdgeKey(source, r.event.lot, r.seqNo))
    {
      var q :| q in records && q.event.lot == source;
      ParentIsInLineage(records, lot, r, source, q);
      DrawnByMember(matched, r, q, edges);
    }
    forall k | 0 <= k < |edges| ensures RealEdge(records, lot, edges[k]) {
      JustifiedInLineage(records, lot, edges[k]);
    }
  }
}
