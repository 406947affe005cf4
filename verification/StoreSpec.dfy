/**
 What the event store's files and memory are after each operation, finished or aborted by
 a write error, and the story they always tell together.
 */
module StoreSpec {
  import opened Common
  import opened Records
  import opened Sorting

  datatype Bounds = Bounds(maxRecords: nat, maxHistory: nat)

  /** The live log, the archive beside it, and what the process keeps in memory. */
  datatype Log = Log(live: seq<Record>, archive: seq<Record>, ring: seq<Record>, counter: int, count: int)

  /** What the operating system lets an append and its rotation do. */
  datatype Faults = Faults(
    lines: nat,       // records whose line reaches the file before a write fails
    synced: bool,     // the batch's fsync succeeds
    readable: bool,   // the rotation can read the log back
    archived: nat,    // overflow lines that reach the archive
    swapped: bool)    // the rewritten log replaces the old one

  /** The ring a list of records, oldest first, is loaded into: newest first, bounded. */
  function Ring(b: Bounds, live: seq<Record>): seq<Record> {
    Reverse(LastN(live, b.maxRecords))
  }

  /** Pushing onto a bounded deque: what exceeds the bound falls out at the other end. */
  function Push(b: Bounds, ring: seq<Record>, r: Record): seq<Record> {
    var longer := [r] + ring;
    if |longer| <= b.maxRecords then longer else longer[..b.maxRecords]
  }

  function HighestOf(live: seq<Record>, n: nat): int
    requires n <= |live|
  {
    if n == 0 then 0
    else if n == 1 || HighestOf(live, n - 1) < live[n - 1].seqNo then live[n - 1].seqNo
    else HighestOf(live, n - 1)
  }

  /** The highest sequence number, or 0. */
  function Highest(live: seq<Record>): int {
    HighestOf(live, |live|)
  }

  predicate Before(live: seq<Record>, i: nat, j: nat)
    requires i < |live| && j < |live|
  {
    live[i].seqNo < live[j].seqNo
  }

  ghost predicate Increasing(live: seq<Record>) {
    forall i: nat, j: nat :: i < j < |live| ==> Before(live, i, j)
  }

  /** File and memory tell one story. */
  ghost predicate Consistent(b: Bounds, g: Log) {
    && Increasing(g.live)
    && g.ring == Ring(b, g.live)
    && g.counter == Highest(g.live)
    && g.count == |g.live|
  }

  /** A store built afresh over the same file. */
  function Load(b: Bounds, g: Log): Log {
    Log(g.live, g.archive, Ring(b, g.live), Highest(g.live), |g.live|)
  }

  // ------------------------------------------------------------- sorting by number

  function SortBySeq(s: seq<Record>): (t: seq<Record>)
    ensures |t| == |s|
  {
    Sorted(s, ByNumber)
  }

  // ------------------------------------------------------------------- operations

  function Number(records: seq<Record>, from: int): (r: seq<Record>)
    ensures |r| == |records|
    ensures forall i :: 0 <= i < |r| ==> r[i] == records[i].(seqNo := from + 1 + i)
  {
    seq(|records|, i requires 0 <= i < |records| => records[i].(seqNo := from + 1 + i))
  }

  function PushFirst(b: Bounds, ring: seq<Record>, records: seq<Record>, n: nat): seq<Record>
    requires n <= |records|
  {
    if n == 0 then ring else Push(b, PushFirst(b, ring, records, n - 1), records[n - 1])
  }

  function PushAll(b: Bounds, ring: seq<Record>, records: seq<Record>): seq<Record> {
    PushFirst(b, ring, records, |records|)
  }

  /** The records an append actually stores. */
  function Stored(g: Log, records: seq<Record>, f: Faults): seq<Record> {
    Number(records[..Min(f.lines, |records|)], g.counter)
  }

  function Slack(b: Bounds): nat {
    if b.maxHistory / 10 < 1 then 1 else b.maxHistory / 10
  }

  predicate RotationDue(b: Bounds, g: Log) {
    g.count > b.maxHistory + Slack(b)
  }

  /** Archive the overflow first, then trim the live log. */
  function Trim(b: Bounds, g: Log, records: seq<Record>, f: Faults): Log
    requires b.maxHistory < |records|
  {
    var overflow := records[..|records| - b.maxHistory];
    var retained := records[|records| - b.maxHistory..];
    var archive := g.archive + overflow[..Min(f.archived, |overflow|)];
    if f.archived < |overflow| || !f.swapped then g.(archive := archive)
    else Log(retained, archive, Ring(b, retained), g.counter, |retained|)
  }

  /** `_rotate_history_if_needed` */
  function Rotate(b: Bounds, g: Log, f: Faults): Log {
    var records := SortBySeq(g.live);
    if !RotationDue(b, g) || !f.readable then g
    else if |records| <= b.maxHistory then g.(count := |records|)
    else Trim(b, g, records, f)
  }

  /** The batch is in the file and in memory, each record once its line is written. */
  function Committed(b: Bounds, g: Log, stored: seq<Record>): Log {
    Log(g.live + stored, g.archive, PushAll(b, g.ring, stored), g.counter + |stored|, g.count + |stored|)
  }

  /** `add_many`: `true` when it returns, `false` when it raises. */
  function Append(b: Bounds, g: Log, records: seq<Record>, f: Faults): (Log, bool) {
    var stored := Stored(g, records, f);
    var g' := Committed(b, g, stored);
    if |stored| < |records| then (g', false)
    else if stored == [] then (g', true)
    else if !f.synced then (g', false)
    else (Rotate(b, g', f), true)
  }

  predicate HasId(live: seq<Record>, n: nat, id: nat)
    requires n <= |live|
  {
    exists i :: 0 <= i < n && live[i].id == id
  }

  /** The last of the first `n` records with that id. */
  function LastWith(live: seq<Record>, n: nat, id: nat): (k: nat)
    requires n <= |live| && HasId(live, n, id)
    ensures k < n && live[k].id == id
    ensures forall j :: k < j < n ==> live[j].id != id
  {
    if live[n - 1].id == id then n - 1 else LastWith(live, n - 1, id)
  }

  function Patched(live: seq<Record>, patch: map<nat, Record>, i: nat): Record
    requires i < |live|
  {
    var id := live[i].id;
    if id in patch then patch[id].(seqNo := live[LastWith(live, |live|, id)].seqNo) else live[i]
  }

  /** What `update_many` puts in the place of each record. Two records with one replaced
      id share the replacement object, so both end with the later one's number. */
  function Updated(live: seq<Record>, patch: map<nat, Record>): (r: seq<Record>)
    ensures |r| == |live|
    ensures forall i :: 0 <= i < |live| ==> r[i] == Patched(live, patch, i)
  {
    seq(|live|, i requires 0 <= i < |live| => Patched(live, patch, i))
  }

  /** `update_many` over the records it read, after a rewrite that reached the disk or not. */
  function UpdateFrom(b: Bounds, g: Log, current: seq<Record>, patch: map<nat, Record>, swapped: bool): Log {
    var updated := Updated(current, patch);
    var persisted := SortBySeq(updated);
    if patch == map[] || !swapped then g
    else Log(persisted, g.archive, Ring(b, updated), Highest(persisted), |persisted|)
  }

  /** `update_many` when it reads what the file says. */
  function Update(b: Bounds, g: Log, patch: map<nat, Record>, swapped: bool): Log {
    UpdateFrom(b, g, SortBySeq(g.live), patch, swapped)
  }

  /** `replace_all` */
  function Replace(b: Bounds, g: Log, records: seq<Record>, swapped: bool): Log {
    var persisted := SortBySeq(records);
    if !swapped then g
    else Log(persisted, g.archive, Ring(b, persisted), Highest(persisted), |persisted|)
  }

  /** `reset` clears memory before it unlinks the file. */
  function Clear(g: Log, unlinked: bool): Log {
    Log(if unlinked then [] else g.live, g.archive, [], 0, 0)
  }

  datatype StoreOp =
    | AddMany(records: seq<Record>, faults: Faults)
    | UpdateMany(patch: map<nat, Record>, swapped: bool)
    | ReplaceAll(records: seq<Record>, swapped: bool)
    | Reset(unlinked: bool)
    | Reload

  function Apply(b: Bounds, g: Log, op: StoreOp): Log {
    match op
    case AddMany(records, f) => Append(b, g, records, f).0
    case UpdateMany(patch, swapped) => Update(b, g, patch, swapped)
    case ReplaceAll(records, swapped) => Replace(b, g, records, swapped)
    case Reset(unlinked) => Clear(g, unlinked)
    case Reload => Load(b, g)
  }

  function ApplyAll(b: Bounds, g: Log, ops: seq<StoreOp>): Log
    decreases |ops|
  {
    if ops == [] then g else Apply(b, ApplyAll(b, g, ops[..|ops| - 1]), ops[|ops| - 1])
  }

  const EMPTY: Log := Log([], [], [], 0, 0)
}
