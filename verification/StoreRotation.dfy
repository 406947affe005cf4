/**
 Rotation conserves history: nothing appended is ever in neither file, and rewriting the
 live log costs at most ten records per record appended.
 */
module StoreRotation {
  import opened Common
  import opened Records
  import opened Sorting
  import opened StoreSpec
  import opened StoreStory

  /** A log with everything ever stored in it and the records its rotations rewrote. */
  datatype History = History(log: Log, stored: seq<Record>, rewritten: nat)

  datatype Batch = Batch(records: seq<Record>, faults: Faults)

  /** The rotation that follows an append trims the live log. */
  predicate Trims(b: Bounds, g: Log, batch: Batch) {
    var f := batch.faults;
    var stored := Stored(g, batch.records, f);
    var g' := Committed(b, g, stored);
    && |stored| == |batch.records| && stored != [] && f.synced
    && RotationDue(b, g') && f.readable && f.swapped
    && b.maxHistory < |g'.live| && |g'.live| - b.maxHistory <= f.archived
  }

  function Extend(b: Bounds, h: History, batch: Batch): History {
    var log := Append(b, h.log, batch.records, batch.faults).0;
    History(log, h.stored + Stored(h.log, batch.records, batch.faults),
            h.rewritten + if Trims(b, h.log, batch) then |log.live| else 0)
  }

  function Grow(b: Bounds, batches: seq<Batch>): History
    decreases |batches|
  {
    if batches == [] then History(EMPTY, [], 0)
    else Extend(b, Grow(b, batches[..|batches| - 1]), batches[|batches| - 1])
  }

  /** How many of the stored records the live log no longer holds. */
  function Retired(h: History): int {
    |h.stored| - |h.log.live|
  }

  predicate InArchive(h: History, i: nat)
    requires i < |h.stored|
  {
    h.stored[i] in h.log.archive
  }

  ghost predicate Conserved(b: Bounds, h: History) {
    && Consistent(b, h.log)
    && 0 <= Retired(h)
    && h.log.live == h.stored[Retired(h)..]
    && (forall i: nat :: i < Retired(h) ==> InArchive(h, i))
    && h.rewritten <= 10 * Retired(h)
  }

  /** The append and its rotation meet no fault at all. */
  predicate Smooth(g: Log, batch: Batch) {
    var f := batch.faults;
    |batch.records| <= f.lines && f.synced && f.readable && |g.live| + |batch.records| <= f.archived && f.swapped
  }

  /** Ten times what a trim retires pays for what it rewrites. */
  lemma TrimIsPaidFor(b: Bounds, live: nat)
    requires 1 <= b.maxHistory && live > b.maxHistory + Slack(b)
    ensures b.maxHistory <= 10 * (live - b.maxHistory)
  {}

  lemma RotateShape(b: Bounds, g: Log, f: Faults)
    requires Consistent(b, g) && 1 <= b.maxHistory
    ensures var g' := Rotate(b, g, f);
      if RotationDue(b, g) && f.readable then
        var k := |g.live| - b.maxHistory;
        && 0 < k
        && g'.archive == g.archive + g.live[..k][..Min(f.archived, k)]
        && g'.live == (if k <= f.archived && f.swapped then g.live[k..] else g.live)
      else g' == g
  {
    SortOfIncreasing(g.live);
  }

  /** One append seen from its ends: `stored` joined the history and the `k` oldest live
      records moved to the archive. */
  ghost predicate Turned(b: Bounds, h: History, h': History, stored: seq<Record>, k: nat) {
    var live := h.log.live + stored;
    && k <= |live|
    && h'.stored == h.stored + stored
    && h'.log.live == live[k..]
    && h.log.archive + live[..k] <= h'.log.archive
    && h'.rewritten <= h.rewritten + 10 * k
    && Consistent(b, h'.log)
  }

  lemma ExtendTurns(b: Bounds, h: History, batch: Batch) returns (stored: seq<Record>, k: nat)
    requires Consistent(b, h.log) && 1 <= b.maxHistory
    ensures Turned(b, h, Extend(b, h, batch), stored, k)
    ensures stored == Stored(h.log, batch.records, batch.faults)
    ensures Trims(b, h.log, batch) ==>
      Extend(b, h, batch).log.archive == h.log.archive + (h.log.live + stored)[..k]
    ensures Trims(b, h.log, batch) ==> |Extend(b, h, batch).log.live| == b.maxHistory
    ensures !Trims(b, h.log, batch) ==> k == 0
  {
    hide Increasing, Sorted, HighestOf, PushFirst, Ring;
    stored := Stored(h.log, batch.records, batch.faults);
    var g := Committed(b, h.log, stored);
    AppendedStory(b, h.log, stored);
    AppendKeepsStory(b, h.log, batch.records, batch.faults);
    RotateShape(b, g, batch.faults);
    if Trims(b, h.log, batch) {
      k := |g.live| - b.maxHistory;
      TrimIsPaidFor(b, |g.live|);
      assert g.live[..k][..k] == g.live[..k];
    } else {
      k := 0;
    }
  }

  lemma TurnKeepsLive(b: Bounds, h: History, h': History, stored: seq<Record>, k: nat)
    requires Conserved(b, h) && Turned(b, h, h', stored, k)
    ensures Retired(h') == Retired(h) + k && h'.log.live == h'.stored[Retired(h')..]
  {
    assert h.log.live + stored == h'.stored[Retired(h)..];
  }

  lemma TurnKeepsArchive(b: Bounds, h: History, h': History, stored: seq<Record>, k: nat, i: nat)
    requires Conserved(b, h) && Turned(b, h, h', stored, k) && i < Retired(h) + k <= |h'.stored|
    ensures InArchive(h', i)
  {
    if i < Retired(h) {
      assert InArchive(h, i);
      var j :| 0 <= j < |h.log.archive| && h.log.archive[j] == h.stored[i];
      assert (h.log.archive + (h.log.live + stored)[..k])[j] == h.stored[i];
    } else {
      var j := i - Retired(h);
      assert (h.log.live + stored)[j] == h'.stored[i];
      assert (h.log.archive + (h.log.live + stored)[..k])[|h.log.archive| + j] == h'.stored[i];
    }
  }

  lemma TurnConserves(b: Bounds, h: History, h': History, stored: seq<Record>, k: nat)
    requires Conserved(b, h) && Turned(b, h, h', stored, k)
    ensures Conserved(b, h')
  {
    TurnKeepsLive(b, h, h', stored, k);
    forall i: nat | i < Retired(h') ensures InArchive(h', i) {
      TurnKeepsArchive(b, h, h', stored, k, i);
    }
  }

  lemma ExtendConserves(b: Bounds, h: History, batch: Batch)
    requires Conserved(b, h) && 1 <= b.maxHistory
    ensures Conserved(b, Extend(b, h, batch))
  {
    var stored, k := ExtendTurns(b, h, batch);
    TurnConserves(b, h, Extend(b, h, batch), stored, k);
  }

  lemma {:induction false} GrowConserves(b: Bounds, batches: seq<Batch>)
    requires 1 <= b.maxHistory
    ensures Conserved(b, Grow(b, batches))
    decreases |batches|
  {
    if batches == [] {
    } else {
      GrowConserves(b, batches[..|batches| - 1]);
      ExtendConserves(b, Grow(b, batches[..|batches| - 1]), batches[|batches| - 1]);
    }
  }

  lemma StoredIsKept(b: Bounds, h: History, i: nat)
    requires Conserved(b, h) && i < |h.stored|
    ensures h.stored[i] in h.log.archive || h.stored[i] in h.log.live
  {
    if Retired(h) <= i {
      assert h.log.live[i - Retired(h)] == h.stored[i];
    } else {
      assert InArchive(h, i);
    }
  }

  /** Whatever fails and wherever: every record an append stored is in the live log, which
      is the newest part of all of them in order, or in the archive; and all the rotations
      together rewrote at most ten records per record stored. */
  lemma NothingIsLost(b: Bounds, batches: seq<Batch>)
    requires 1 <= b.maxHistory
    ensures var h := Grow(b, batches);
      && |h.log.live| <= |h.stored| && h.log.live == h.stored[|h.stored| - |h.log.live|..]
      && (forall i :: 0 <= i < |h.stored| ==> h.stored[i] in h.log.archive || h.stored[i] in h.log.live)
      && h.rewritten <= 10 * (|h.stored| - |h.log.live|)
  {
    var h := Grow(b, batches);
    GrowConserves(b, batches);
    forall i | 0 <= i < |h.stored| ensures h.stored[i] in h.log.archive || h.stored[i] in h.log.live {
      StoredIsKept(b, h, i);
    }
  }

  ghost predicate AllSmooth(b: Bounds, batches: seq<Batch>) {
    forall k :: 0 <= k < |batches| ==> Smooth(Grow(b, batches[..k]).log, batches[k])
  }

  /** An append without faults trims whenever the log is over its bound and its slack,
      however badly earlier rotations went, and leaves the archive exactly behind it. */
  lemma SmoothAppendIsBounded(b: Bounds, h: History, batch: Batch)
    requires Consistent(b, h.log) && 1 <= b.maxHistory && Smooth(h.log, batch)
    requires batch.records == [] ==> |h.log.live| <= b.maxHistory + Slack(b)
    ensures |Extend(b, h, batch).log.live| <= b.maxHistory + Slack(b)
    ensures !Trims(b, h.log, batch) ==> Extend(b, h, batch).log.archive == h.log.archive
  {
    var stored := Stored(h.log, batch.records, batch.faults);
    AppendedStory(b, h.log, stored);
    RotateShape(b, Committed(b, h.log, stored), batch.faults);
  }

  /** The archive followed by the live log is the whole history, and the live log is bounded. */
  ghost predicate Exact(b: Bounds, h: History) {
    h.log.archive + h.log.live == h.stored && |h.log.live| <= b.maxHistory + Slack(b)
  }

  lemma Rejoin(archive: seq<Record>, live: seq<Record>, added: seq<Record>, k: nat)
    requires k <= |live + added|
    ensures archive + (live + added)[..k] + (live + added)[k..] == archive + live + added
  {}

  lemma TurnKeepsExact(b: Bounds, h: History, h': History, added: seq<Record>, k: nat)
    requires Exact(b, h) && Turned(b, h, h', added, k) && |h'.log.live| <= b.maxHistory + Slack(b)
    requires h'.log.archive == h.log.archive + (h.log.live + added)[..k]
    ensures Exact(b, h')
  {
    Rejoin(h.log.archive, h.log.live, added, k);
  }

  lemma SmoothStep(b: Bounds, h: History, batch: Batch)
    requires Consistent(b, h.log) && 1 <= b.maxHistory && Smooth(h.log, batch) && Exact(b, h)
    ensures Exact(b, Extend(b, h, batch))
  {
    var h' := Extend(b, h, batch);
    var added, k := ExtendTurns(b, h, batch);
    SmoothAppendIsBounded(b, h, batch);
    assert k == 0 ==> (h.log.live + added)[..k] == [];
    TurnKeepsExact(b, h, h', added, k);
  }

  /** Without faults the archive followed by the live log is exactly what was appended. */
  lemma {:induction false} ArchiveThenLive(b: Bounds, batches: seq<Batch>)
    requires 1 <= b.maxHistory && AllSmooth(b, batches)
    ensures Exact(b, Grow(b, batches))
    decreases |batches|
  {
    if batches == [] {
    } else {
      var front := batches[..|batches| - 1];
      assert forall k :: 0 <= k < |front| ==> front[..k] == batches[..k];
      ArchiveThenLive(b, front);
      GrowConserves(b, front);
      SmoothStep(b, Grow(b, front), batches[|batches| - 1]);
    }
  }
}
