/**
 File and memory tell one story after every store operation, and a rotation loses nothing.
 */
module StoreStory {
  import opened Common
  import opened Records
  import opened Sorting
  import opened StoreSpec

  // ---------------------------------------------------------------- sorting

  predicate Differ(s: seq<Record>, i: nat, j: nat)
    requires i < |s| && j < |s|
  {
    s[i].seqNo != s[j].seqNo
  }

  ghost predicate DistinctNumbers(s: seq<Record>) {
    forall i: nat, j: nat :: i < j < |s| ==> Differ(s, i, j)
  }

  lemma IncreasingSlice(s: seq<Record>, lo: nat, hi: nat)
    requires Increasing(s) && lo <= hi <= |s|
    ensures Increasing(s[lo..hi])
  {
    forall i: nat, j: nat | i < j < hi - lo ensures Before(s[lo..hi], i, j) {
      assert Before(s, lo + i, lo + j);
    }
  }

  lemma IncreasingIffOrdered(s: seq<Record>)
    ensures Increasing(s) <==> Ordered(s, ByNumber) && DistinctNumbers(s)
  {
    if Increasing(s) {
      forall i: nat, j: nat | i < j < |s| ensures AtMost(ByNumber(s[i]), ByNumber(s[j])) && Differ(s, i, j) {
        assert Before(s, i, j);
      }
    } else if Ordered(s, ByNumber) {
      var i: nat, j: nat :| i < j < |s| && !Before(s, i, j);
      assert AtMost(ByNumber(s[i]), ByNumber(s[j]));
      assert !Differ(s, i, j);
    }
  }

  lemma SortOfIncreasing(s: seq<Record>)
    requires Increasing(s)
    ensures SortBySeq(s) == s
  {
    IncreasingIffOrdered(s);
    AlreadySorted(s, ByNumber);
  }

  function CountOf(s: seq<Record>, rank: Rank): nat {
    |Ranked(s, ByNumber, rank)|
  }

  /** No number occurs twice. */
  ghost predicate RankedOnce(s: seq<Record>) {
    forall rank :: CountOf(s, rank) <= 1
  }

  lemma {:induction false} RankedSome(s: seq<Record>, i: nat)
    requires i < |s|
    ensures CountOf(s, ByNumber(s[i])) >= 1
  {
    if i == |s| - 1 {
    } else {
      RankedSome(s[..|s| - 1], i);
    }
  }

  lemma {:induction false} RankedTwice(s: seq<Record>, i: nat, j: nat)
    requires i < j < |s| && !Differ(s, i, j)
    ensures CountOf(s, ByNumber(s[j])) >= 2
  {
    if j == |s| - 1 {
      RankedSome(s[..j], i);
    } else {
      RankedTwice(s[..|s| - 1], i, j);
    }
  }

  lemma DistinctFront(s: seq<Record>)
    requires DistinctNumbers(s) && s != []
    ensures DistinctNumbers(s[..|s| - 1])
  {
    var front := s[..|s| - 1];
    forall i: nat, j: nat | i < j < |front| ensures Differ(front, i, j) {
      assert Differ(s, i, j);
    }
  }

  lemma {:induction false} DistinctIsRankedOnce(s: seq<Record>, rank: Rank)
    requires DistinctNumbers(s)
    ensures CountOf(s, rank) <= 1
  {
    if s == [] {
    } else {
      var n := |s| - 1;
      DistinctFront(s);
      if ByNumber(s[n]) == rank {
        forall i | 0 <= i < n ensures ByNumber(s[..n][i]) != rank {
          assert Differ(s, i, n);
        }
        NoneRanked(s[..n], ByNumber, rank);
      } else {
        DistinctIsRankedOnce(s[..n], rank);
      }
    }
  }

  lemma DistinctIffRankedOnce(s: seq<Record>)
    ensures DistinctNumbers(s) <==> RankedOnce(s)
  {
    hide Ranked;
    if DistinctNumbers(s) {
      forall rank ensures CountOf(s, rank) <= 1 {
        DistinctIsRankedOnce(s, rank);
      }
    } else {
      var i: nat, j: nat :| i < j < |s| && !Differ(s, i, j);
      RankedTwice(s, i, j);
    }
  }

  /** A list sorts to an increasing log exactly when its numbers are distinct. */
  lemma SortIncreasingIffDistinct(s: seq<Record>)
    ensures Increasing(SortBySeq(s)) <==> DistinctNumbers(s)
  {
    hide Ranked, Sorted, Increasing, DistinctNumbers;
    SortedIsStable(s, ByNumber);
    IncreasingIffOrdered(SortBySeq(s));
    DistinctIffRankedOnce(s);
    DistinctIffRankedOnce(SortBySeq(s));
    assert forall rank :: CountOf(SortBySeq(s), rank) == CountOf(s, rank);
  }

  // ---------------------------------------------------------------- the ring

  lemma PushKeepsRing(b: Bounds, live: seq<Record>, r: Record)
    ensures Push(b, Ring(b, live), r) == Ring(b, live + [r])
  {
    var kept := LastN(live, b.maxRecords);
    var longer := [r] + Ring(b, live);
    if |longer| <= b.maxRecords {
      assert live == kept;
    }
  }

  lemma {:induction false} PushFirstKeepsRing(b: Bounds, live: seq<Record>, records: seq<Record>, n: nat)
    requires n <= |records|
    ensures PushFirst(b, Ring(b, live), records, n) == Ring(b, live + records[..n])
  {
    if n == 0 {
      assert live + records[..0] == live;
    } else {
      PushFirstKeepsRing(b, live, records, n - 1);
      PushKeepsRing(b, live + records[..n - 1], records[n - 1]);
      assert live + records[..n] == live + records[..n - 1] + [records[n - 1]];
    }
  }

  lemma {:induction false} HighestIsLast(live: seq<Record>, n: nat)
    requires Increasing(live) && 0 < n <= |live|
    ensures HighestOf(live, n) == live[n - 1].seqNo
  {
    if n == 1 {
    } else {
      HighestIsLast(live, n - 1);
      assert Before(live, n - 2, n - 1);
    }
  }

  // ------------------------------------------------ each operation keeps the story

  lemma NumberedIncrease(b: Bounds, g: Log, stored: seq<Record>)
    requires Consistent(b, g)
    requires forall i :: 0 <= i < |stored| ==> stored[i].seqNo == g.counter + 1 + i
    ensures Increasing(g.live + stored)
  {
    if g.live != [] {
      HighestIsLast(g.live, |g.live|);
    }
    var all := g.live + stored;
    forall i: nat, j: nat | i < j < |all| ensures Before(all, i, j) {
      if j < |g.live| {
        assert Before(g.live, i, j);
      } else if i < |g.live| {
        assert i < |g.live| - 1 ==> Before(g.live, i, |g.live| - 1);
      }
    }
  }

  lemma AppendedStory(b: Bounds, g: Log, stored: seq<Record>)
    requires Consistent(b, g)
    requires forall i :: 0 <= i < |stored| ==> stored[i].seqNo == g.counter + 1 + i
    ensures Consistent(b, Committed(b, g, stored))
  {
    PushFirstKeepsRing(b, g.live, stored, |stored|);
    assert stored[..|stored|] == stored;
    NumberedIncrease(b, g, stored);
    if stored != [] {
      HighestIsLast(g.live + stored, |g.live + stored|);
    } else {
      assert g.live + stored == g.live;
    }
  }

  lemma TrimmedStory(b: Bounds, g: Log, k: nat, archive: seq<Record>)
    requires Consistent(b, g) && k < |g.live|
    ensures Consistent(b, Log(g.live[k..], archive, Ring(b, g.live[k..]), g.counter, |g.live[k..]|))
  {
    IncreasingSlice(g.live, k, |g.live|);
    assert g.live[k..] == g.live[k..|g.live|];
    HighestIsLast(g.live, |g.live|);
    HighestIsLast(g.live[k..], |g.live| - k);
  }

  lemma RotatedStory(b: Bounds, g: Log, f: Faults)
    requires Consistent(b, g) && 1 <= b.maxHistory
    ensures Consistent(b, Rotate(b, g, f))
  {
    hide Increasing, Sorted, Ring, HighestOf;
    SortOfIncreasing(g.live);
    if RotationDue(b, g) && f.readable && b.maxHistory < |g.live| {
      TrimmedStory(b, g, |g.live| - b.maxHistory, Rotate(b, g, f).archive);
    }
  }

  lemma AppendKeepsStory(b: Bounds, g: Log, records: seq<Record>, f: Faults)
    requires Consistent(b, g) && 1 <= b.maxHistory
    ensures Consistent(b, Append(b, g, records, f).0)
  {
    var stored := Stored(g, records, f);
    AppendedStory(b, g, stored);
    RotatedStory(b, Committed(b, g, stored), f);
  }

  ghost predicate ReplacedOnce(live: seq<Record>, patch: map<nat, Record>) {
    forall i, j :: 0 <= i < j < |live| && live[i].id == live[j].id ==> live[i].id !in patch
  }

  /** The rewritten records of `update_many` have distinct numbers exactly when no id that
      is replaced occurs twice in the log. */
  lemma UpdatedDistinctIffIdsAre(live: seq<Record>, patch: map<nat, Record>)
    requires Increasing(live)
    ensures DistinctNumbers(Updated(live, patch)) <==> ReplacedOnce(live, patch)
    ensures ReplacedOnce(live, patch) ==> Increasing(Updated(live, patch))
  {
    var u := Updated(live, patch);
    if ReplacedOnce(live, patch) {
      forall i | 0 <= i < |live| ensures u[i].seqNo == live[i].seqNo {
        if live[i].id in patch {
          assert LastWith(live, |live|, live[i].id) == i;
        }
      }
      forall i: nat, j: nat | i < j < |u| ensures Before(u, i, j) && Differ(u, i, j) {
        assert Before(live, i, j);
      }
    } else {
      var i: nat, j: nat :| i < j < |live| && live[i].id == live[j].id && live[i].id in patch;
      assert !Differ(u, i, j);
    }
  }

  lemma UpdateKeepsStory(b: Bounds, g: Log, patch: map<nat, Record>, swapped: bool)
    requires Consistent(b, g)
    ensures Consistent(b, Update(b, g, patch, swapped)) <==> (swapped ==> ReplacedOnce(g.live, patch))
  {
    SortOfIncreasing(g.live);
    var u := Updated(g.live, patch);
    UpdatedDistinctIffIdsAre(g.live, patch);
    SortIncreasingIffDistinct(u);
    if ReplacedOnce(g.live, patch) {
      SortOfIncreasing(u);
    }
  }

  lemma ReplaceKeepsStory(b: Bounds, g: Log, records: seq<Record>, swapped: bool)
    requires Consistent(b, g)
    ensures Consistent(b, Replace(b, g, records, swapped)) <==> (swapped ==> DistinctNumbers(records))
  {
    SortIncreasingIffDistinct(records);
  }

  /** reset() empties memory first, so it keeps the story exactly when the file goes too. */
  lemma ClearKeepsStory(b: Bounds, g: Log, unlinked: bool)
    requires Consistent(b, g)
    ensures Consistent(b, Clear(g, unlinked)) <==> unlinked || g.live == []
  {}

  // -------------------------------------------------------------- over whole runs

  /** What a caller or the disk must grant an operation; appends need nothing. */
  ghost predicate Granted(g: Log, op: StoreOp) {
    match op
    case AddMany(_, _) => true
    case UpdateMany(patch, swapped) => swapped ==> ReplacedOnce(g.live, patch)
    case ReplaceAll(records, swapped) => swapped ==> DistinctNumbers(records)
    case Reset(unlinked) => unlinked || g.live == []
    case Reload => true
  }

  /** One operation keeps the story exactly when it is granted that. */
  lemma StoryKeptIffGranted(b: Bounds, g: Log, op: StoreOp)
    requires Consistent(b, g) && 1 <= b.maxHistory
    ensures Consistent(b, Apply(b, g, op)) <==> Granted(g, op)
  {
    match op
    case AddMany(records, f) => AppendKeepsStory(b, g, records, f);
    case UpdateMany(patch, swapped) => UpdateKeepsStory(b, g, patch, swapped);
    case ReplaceAll(records, swapped) => ReplaceKeepsStory(b, g, records, swapped);
    case Reset(unlinked) => ClearKeepsStory(b, g, unlinked);
    case Reload =>
  }

  ghost predicate AllGranted(b: Bounds, g: Log, ops: seq<StoreOp>) {
    forall k :: 0 <= k < |ops| ==> Granted(ApplyAll(b, g, ops[..k]), ops[k])
  }

  /** After any run of operations, each finished or aborted at any record, file and memory
      agree, and a store built afresh over the file is in the same state. */
  lemma {:induction false} RunKeepsStory(b: Bounds, ops: seq<StoreOp>)
    requires 1 <= b.maxHistory && AllGranted(b, EMPTY, ops)
    ensures Consistent(b, ApplyAll(b, EMPTY, ops))
    ensures Load(b, ApplyAll(b, EMPTY, ops)) == ApplyAll(b, EMPTY, ops)
    decreases |ops|
  {
    if ops == [] {
    } else {
      var front := ops[..|ops| - 1];
      assert forall k :: 0 <= k < |front| ==> front[..k] == ops[..k];
      RunKeepsStory(b, front);
      StoryKeptIffGranted(b, ApplyAll(b, EMPTY, front), ops[|ops| - 1]);
    }
  }
}
