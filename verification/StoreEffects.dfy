/**
 What each store operation leaves in the log, record by record.
 */
module StoreEffects {
  import opened Common
  import opened Records
  import opened Sorting
  import opened StoreSpec
  import opened StoreStory
  import opened StoreRotation

  // ------------------------------------------------------------------ appending

  lemma RotateKeepsCounter(b: Bounds, g: Log, f: Faults)
    ensures Rotate(b, g, f).counter == g.counter
  {
    hide Sorted;
  }

  /** The log, and behind it the first so many of the records, numbered on from its highest
      number and otherwise as given. */
  ghost predicate Extends(g: Log, records: seq<Record>, written: nat, all: seq<Record>)
    requires written <= |records|
  {
    && |all| == |g.live| + written && g.live <= all
    && forall i :: 0 <= i < written ==> all[|g.live| + i] == records[i].(seqNo := g.counter + 1 + i)
  }

  /** A log longer than its bound by more than a tenth of it, and by more than one record, loses
      its oldest records down to the bound; they are all in the archive first, and the log stays
      whole if they do not all get there or the new one cannot be swapped in. */
  ghost predicate Bounded(b: Bounds, live: seq<Record>, archive: seq<Record>, f: Faults, g': Log) {
    var excess := |live| - b.maxHistory;
    if excess <= 1 || excess <= b.maxHistory / 10 || !f.readable then
      g'.live == live && g'.archive == archive
    else if f.archived < excess || !f.swapped then
      g'.live == live && g'.archive == archive + live[..Min(f.archived, excess)]
    else
      g'.live == live[excess..] && g'.archive == archive + live[..excess]
  }

  /** An append writes the records up to the one whose line fails; once a batch is in the file
      and synced the log is bounded. */
  ghost predicate Appends(b: Bounds, g: Log, g': Log, records: seq<Record>, f: Faults, all: seq<Record>) {
    var written := Min(f.lines, |records|);
    && Extends(g, records, written, all) && g'.counter == g.counter + written
    && if written < |records| || records == [] || !f.synced then g'.live == all && g'.archive == g.archive
       else Bounded(b, all, g.archive, f, g')
  }

  lemma StoredExtends(g: Log, records: seq<Record>, f: Faults)
    ensures Extends(g, records, Min(f.lines, |records|), g.live + Stored(g, records, f))
    ensures |Stored(g, records, f)| == Min(f.lines, |records|)
  {
    var written := Min(f.lines, |records|);
    var stored := Stored(g, records, f);
    forall i | 0 <= i < written ensures stored[i] == records[i].(seqNo := g.counter + 1 + i) {
      assert records[..written][i] == records[i];
    }
    hide Stored;
    forall i | 0 <= i < written ensures (g.live + stored)[|g.live| + i] == records[i].(seqNo := g.counter + 1 + i) {
      assert (g.live + stored)[|g.live| + i] == stored[i];
    }
  }

  lemma AppendRotates(b: Bounds, g: Log, records: seq<Record>, f: Faults)
    ensures var stored := Stored(g, records, f); var g' := Committed(b, g, stored);
      && g'.live == g.live + stored && g'.archive == g.archive
      && g'.counter == g.counter + |stored| && g'.count == g.count + |stored|
      && Append(b, g, records, f).0 == (if |stored| < |records| || stored == [] || !f.synced then g' else Rotate(b, g', f))
      && (Append(b, g, records, f).1 <==> |stored| == |records| && (stored == [] || f.synced))
  {
    hide Rotate, PushAll;
  }

  lemma RotateLeaves(b: Bounds, g: Log, f: Faults)
    requires Consistent(b, g) && 1 <= b.maxHistory
    ensures Bounded(b, g.live, g.archive, f, Rotate(b, g, f)) && Rotate(b, g, f).counter == g.counter
  {
    hide Increasing, HighestOf, Ring;
    RotateShape(b, g, f);
    RotateKeepsCounter(b, g, f);
    hide Rotate;
    if RotationDue(b, g) && f.readable {
      var k := |g.live| - b.maxHistory;
      var m := Min(f.archived, k);
      assert g.live[..k][..m] == g.live[..m];
    }
  }

  lemma AppendLeaves(b: Bounds, g: Log, records: seq<Record>, f: Faults) returns (all: seq<Record>)
    requires Consistent(b, g) && 1 <= b.maxHistory
    ensures Appends(b, g, Append(b, g, records, f).0, records, f, all) && all == g.live + Stored(g, records, f)
    ensures Append(b, g, records, f).1 <==> |records| <= f.lines && (records == [] || f.synced)
  {
    var stored := Stored(g, records, f);
    all := g.live + stored;
    AppendedStory(b, g, stored);
    StoredExtends(g, records, f);
    AppendRotates(b, g, records, f);
    RotateLeaves(b, Committed(b, g, stored), f);
    hide Consistent, Append, Rotate, Committed, Stored, Extends, Bounded;
  }

  // ------------------------------------------------------------------ replacing

  /** A list in which each record whose id is replaced became its replacement, under its old
      number, and every other one is as it was. */
  ghost predicate Patches(before: seq<Record>, after: seq<Record>, patch: map<nat, Record>) {
    |after| == |before| && forall i :: 0 <= i < |before| ==>
      after[i] == if before[i].id in patch then patch[before[i].id].(seqNo := before[i].seqNo) else before[i]
  }

  ghost predicate KeysAreIds(patch: map<nat, Record>) {
    forall id :: id in patch ==> patch[id].id == id
  }

  lemma UpdatedPatches(live: seq<Record>, patch: map<nat, Record>)
    requires ReplacedOnce(live, patch)
    ensures Patches(live, Updated(live, patch), patch)
  {
    forall i | 0 <= i < |live| && live[i].id in patch ensures LastWith(live, |live|, live[i].id) == i {}
  }

  /** An update whose ids each occur once replaces exactly those records, in their places. */
  lemma UpdatePatches(b: Bounds, g: Log, patch: map<nat, Record>)
    requires Consistent(b, g) && ReplacedOnce(g.live, patch)
    ensures Patches(g.live, Update(b, g, patch, true).live, patch)
  {
    SortOfIncreasing(g.live);
    UpdatedDistinctIffIdsAre(g.live, patch);
    SortOfIncreasing(Updated(g.live, patch));
    UpdatedPatches(g.live, patch);
  }

  /** So the ids and the numbers of the log stay, in their order. */
  lemma PatchesKeepIds(before: seq<Record>, after: seq<Record>, patch: map<nat, Record>)
    requires Patches(before, after, patch) && KeysAreIds(patch)
    ensures |after| == |before|
    ensures forall i :: 0 <= i < |before| ==> after[i].id == before[i].id && after[i].seqNo == before[i].seqNo
  {}

  predicate LastOf(live: seq<Record>, k: nat, id: nat)
    requires k < |live|
  {
    live[k].id == id && forall j :: k < j < |live| ==> live[j].id != id
  }

  /** When an id that is replaced occurs more than once, every one of its records becomes the
      replacement, all under the number of the last; nothing else changes but the order. */
  lemma UpdatedTwice(live: seq<Record>, patch: map<nat, Record>, i: nat)
    requires i < |live| && live[i].id in patch
    ensures exists k :: i <= k < |live| && LastOf(live, k, live[i].id)
              && Updated(live, patch)[i] == patch[live[i].id].(seqNo := live[k].seqNo)
  {
    var k := LastWith(live, |live|, live[i].id);
    assert LastOf(live, k, live[i].id);
  }

  // ------------------------------------------------------------------ rewriting

  /** A replacement leaves exactly the records given, by number; one that fails, the log. */
  lemma ReplaceLeaves(b: Bounds, g: Log, records: seq<Record>, swapped: bool)
    ensures var g' := Replace(b, g, records, swapped);
      if swapped then
        && multiset(g'.live) == multiset(records)
        && (forall i, j :: 0 <= i < j < |g'.live| ==> g'.live[i].seqNo <= g'.live[j].seqNo)
        && g'.archive == g.archive
      else g' == g
  {
    SortedPermutes(records, ByNumber);
    SortedIsStable(records, ByNumber);
    var t := Sorted(records, ByNumber);
    forall i, j | 0 <= i < j < |t| ensures t[i].seqNo <= t[j].seqNo {
      assert AtMost(ByNumber(t[i]), ByNumber(t[j]));
    }
  }

  /** A reset forgets every record in memory, and in the file if that could be removed. */
  lemma ResetLeaves(g: Log, unlinked: bool)
    ensures var g' := Clear(g, unlinked);
      g'.ring == [] && g'.counter == 0 && g'.count == 0 && g'.archive == g.archive
      && g'.live == (if unlinked then [] else g.live)
  {}

  lemma {:induction false} HighestIsHighest(live: seq<Record>, n: nat)
    requires n <= |live|
    ensures n == 0 ==> HighestOf(live, n) == 0
    ensures n > 0 ==> exists i :: 0 <= i < n && HighestOf(live, n) == live[i].seqNo
    ensures forall i :: 0 <= i < n ==> live[i].seqNo <= HighestOf(live, n)
  {
    if n == 0 {
    } else {
      HighestIsHighest(live, n - 1);
    }
  }

  /** Loading keeps the newest records of the file, newest first, up to the ring's bound, the
      highest number in it, or 0, and how many there are. */
  lemma LoadLeaves(b: Bounds, g: Log)
    ensures var g' := Load(b, g);
      && g'.live == g.live && g'.archive == g.archive && g'.count == |g.live|
      && |g'.ring| == Min(b.maxRecords, |g.live|)
      && (forall i :: 0 <= i < |g'.ring| ==> g'.ring[i] == g.live[|g.live| - 1 - i])
      && (if g.live == [] then g'.counter == 0 else exists i :: 0 <= i < |g.live| && g'.counter == g.live[i].seqNo)
      && (forall i :: 0 <= i < |g.live| ==> g.live[i].seqNo <= g'.counter)
  {
    HighestIsHighest(g.live, |g.live|);
  }

  /** Whatever memory held before, a rewrite that reached the disk leaves in it the number of
      the records written and the highest of their numbers; so does a rotation that finds the
      count ahead of the file, or trims it. */
  lemma MemoryFollowsRewrite(b: Bounds, g: Log, current: seq<Record>, patch: map<nat, Record>, records: seq<Record>, f: Faults)
    requires 1 <= b.maxHistory
    ensures patch != map[] ==>
      var g' := UpdateFrom(b, g, current, patch, true); g'.count == |g'.live| == |current| && g'.counter == Highest(g'.live)
    ensures var g' := Replace(b, g, records, true);
      g'.count == |g'.live| == |records| && g'.counter == Highest(g'.live) && g'.ring == Ring(b, g'.live)
    ensures var excess := |g.live| - b.maxHistory;
      RotationDue(b, g) && f.readable && (excess <= 0 || (excess <= f.archived && f.swapped)) ==>
      Rotate(b, g, f).count == |Rotate(b, g, f).live|
  {
    hide Sorted, HighestOf, Ring;
  }

  // ------------------------------------------------------------------ over whole runs

  /** What one operation does to the records of the log. */
  ghost predicate Does(b: Bounds, before: Log, after: Log, op: StoreOp) {
    match op
    case AddMany(records, f) => exists all :: Appends(b, before, after, records, f, all)
    case UpdateMany(patch, swapped) =>
      if swapped && patch != map[] then Patches(before.live, after.live, patch) && after.archive == before.archive
      else after == before
    case ReplaceAll(records, swapped) =>
      if swapped then
        multiset(after.live) == multiset(records) && Increasing(after.live) && after.archive == before.archive
      else after == before
    case Reset(_) => after.live == [] && after.ring == [] && after.archive == before.archive
    case Reload => after == before
  }

  lemma GrantedDoes(b: Bounds, g: Log, op: StoreOp)
    requires Consistent(b, g) && Granted(g, op) && 1 <= b.maxHistory
    ensures Does(b, g, Apply(b, g, op), op)
  {
    hide Append, Appends, Sorted, Patches, Increasing, Updated, Ring, HighestOf;
    StoryKeptIffGranted(b, g, op);
    match op
    case AddMany(records, f) => var all := AppendLeaves(b, g, records, f);
    case UpdateMany(patch, swapped) =>
      if swapped {
        UpdatePatches(b, g, patch);
      }
    case ReplaceAll(records, swapped) => ReplaceLeaves(b, g, records, swapped);
    case Reset(unlinked) =>
    case Reload =>
  }

  /** Over any granted run, each operation appends, replaces, rewrites or removes exactly the
      records it was given. */
  lemma EachStepDoes(b: Bounds, ops: seq<StoreOp>, k: nat)
    requires 1 <= b.maxHistory && AllGranted(b, EMPTY, ops) && k < |ops|
    ensures Does(b, ApplyAll(b, EMPTY, ops[..k]), ApplyAll(b, EMPTY, ops[..k + 1]), ops[k])
  {
    hide Does, Apply, Granted, Consistent;
    assert forall j :: 0 <= j < k ==> ops[..k][..j] == ops[..j];
    RunKeepsStory(b, ops[..k]);
    GrantedDoes(b, ApplyAll(b, EMPTY, ops[..k]), ops[k]);
    assert ops[..k + 1][..k] == ops[..k];
  }
}
