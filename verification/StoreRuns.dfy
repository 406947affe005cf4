/**
 The whole store at work: over any run of calls on one `EventStore`, cached reads included,
 file, memory and cache agree, and every read answers what the log holds.
 */
module StoreRuns {
  import opened Common
  import opened Records
  import opened Sorting
  import opened StoreSpec
  import opened StoreStory
  import opened StoreEffects
  import opened StoreCache
  import opened Store

  datatype Call =
    | Adds(records: seq<Record>, faults: Faults)
    | Updates(records: seq<Record>, swapped: bool)
    | Replaces(records: seq<Record>, swapped: bool)
    | Resets(unlinked: bool)
    | Reloads
    | Looks

  /** What a call does to the log; a read does nothing. */
  function OpOf(call: Call): Option<StoreOp> {
    match call
    case Adds(records, f) => Some(AddMany(records, f))
    case Updates(records, swapped) => Some(UpdateMany(ById(records), swapped))
    case Replaces(records, swapped) => Some(ReplaceAll(records, swapped))
    case Resets(unlinked) => Some(StoreOp.Reset(unlinked))
    case Reloads => Some(Reload)
    case Looks => None
  }

  function Done(b: Bounds, g: Log, calls: seq<Call>): Log
    decreases |calls|
  {
    if calls == [] then g
    else
      var before := Done(b, g, calls[..|calls| - 1]);
      var op := OpOf(calls[|calls| - 1]);
      if op.Some? then Apply(b, before, op.value) else before
  }

  /** Each call is granted what the story needs, at its moment. */
  ghost predicate AllGrantedIn(b: Bounds, g: Log, calls: seq<Call>) {
    forall k :: 0 <= k < |calls| && OpOf(calls[k]).Some? ==> Granted(Done(b, g, calls[..k]), OpOf(calls[k]).value)
  }

  lemma NothingDone(b: Bounds, g: Log, calls: seq<Call>)
    ensures Done(b, g, calls[..0]) == g
  {}

  lemma OneMoreDone(b: Bounds, g: Log, calls: seq<Call>, i: nat)
    requires i < |calls|
    ensures Done(b, g, calls[..i + 1])
      == if OpOf(calls[i]).Some? then Apply(b, Done(b, g, calls[..i]), OpOf(calls[i]).value) else Done(b, g, calls[..i])
  {
    assert calls[..i + 1][..i] == calls[..i];
  }

  lemma {:induction false} DoneStaysConsistent(b: Bounds, g: Log, calls: seq<Call>, k: nat)
    requires Consistent(b, g) && AllGrantedIn(b, g, calls) && k <= |calls| && 1 <= b.maxHistory
    ensures Consistent(b, Done(b, g, calls[..k]))
  {
    hide Consistent, Granted, Apply, Done, OpOf;
    if k == 0 {
      NothingDone(b, g, calls);
    } else {
      DoneStaysConsistent(b, g, calls, k - 1);
      OneMoreDone(b, g, calls, k - 1);
      var op := OpOf(calls[k - 1]);
      if op.Some? {
        StoryKeptIffGranted(b, Done(b, g, calls[..k - 1]), op.value);
      }
    }
  }

  /** Each call of a run appends, replaces, rewrites or removes exactly the records it was given. */
  lemma EachCallDoes(b: Bounds, g: Log, calls: seq<Call>, k: nat)
    requires Consistent(b, g) && AllGrantedIn(b, g, calls) && k < |calls| && 1 <= b.maxHistory
    ensures var op := OpOf(calls[k]); var before, after := Done(b, g, calls[..k]), Done(b, g, calls[..k + 1]);
      if op.Some? then Does(b, before, after, op.value) else after == before
  {
    hide Consistent, Granted, Apply, Done, OpOf, Does;
    DoneStaysConsistent(b, g, calls, k);
    OneMoreDone(b, g, calls, k);
    if OpOf(calls[k]).Some? {
      GrantedDoes(b, Done(b, g, calls[..k]), OpOf(calls[k]).value);
    }
  }

  /** One call: the log is what the specification makes of it, although updates and rotations
      read through the cache, and the cache stays sound. */
  method Serve(store: EventStore, call: Call) returns (answer: seq<Record>)
    requires store.Valid() && store.CacheSound() && Consistent(store.bounds, store.View())
    requires OpOf(call).Some? ==> Granted(store.View(), OpOf(call).value)
    modifies store
    ensures store.Valid() && store.CacheSound() && Consistent(store.bounds, store.View())
    ensures store.View() == if OpOf(call).Some? then Apply(store.bounds, old(store.View()), OpOf(call).value) else old(store.View())
    ensures OpOf(call).Some? ==> Does(store.bounds, old(store.View()), store.View(), OpOf(call).value)
    ensures call.Looks? ==> answer == old(store.View()).live
  {
    hide Append, UpdateFrom, Update, Replace, Granted, Increasing, Sorted, Ring, HighestOf, Stands, ById;
    ghost var b, before := store.bounds, store.View();
    EmptyTogether(b, before);
    if OpOf(call).Some? {
      StoryKeptIffGranted(b, before, OpOf(call).value);
      GrantedDoes(b, before, OpOf(call).value);
    }
    hide Consistent, Does;
    answer := [];
    match call {
      case Adds(records, f) => var stored, ok := store.AppendMany(records, f);
      case Updates(records, swapped) => var updated, ok := store.UpdateRecords(records, swapped);
      case Replaces(records, swapped) => var persisted, ok := store.ReplaceRecords(records, swapped);
      case Resets(unlinked) => store.ResetStore(unlinked);
      case Reloads => store.Configure(store.path);
      case Looks => answer := store.ReadAll();
    }
  }

  /** Any run of calls: file and memory tell one story throughout, the cache never holds
      anything else than its file, and each read answers the log as it stands. */
  method Work(store: EventStore, calls: seq<Call>) returns (answers: seq<seq<Record>>)
    requires store.Valid() && store.CacheSound() && Consistent(store.bounds, store.View())
    requires AllGrantedIn(store.bounds, store.View(), calls)
    modifies store
    ensures store.Valid() && store.CacheSound() && Consistent(store.bounds, store.View())
    ensures store.View() == Done(store.bounds, old(store.View()), calls)
    ensures |answers| == |calls|
    ensures forall k :: 0 <= k < |calls| && calls[k].Looks? ==>
      answers[k] == Done(store.bounds, old(store.View()), calls[..k]).live
  {
    hide Consistent, Granted, Apply, Stands, Sound, Done, OpOf;
    NothingDone(store.bounds, store.View(), calls);
    ghost var b, start := store.bounds, store.View();
    answers := [];
    for i := 0 to |calls|
      invariant store.Valid() && store.CacheSound() && Consistent(b, store.View())
      invariant store.View() == Done(b, start, calls[..i])
      invariant |answers| == i
      invariant forall k :: 0 <= k < i && calls[k].Looks? ==> answers[k] == Done(b, start, calls[..k]).live
    {
      OneMoreDone(b, start, calls, i);
      var answer := Serve(store, calls[i]);
      answers := answers + [answer];
    }
    assert calls[..|calls|] == calls;
  }
}
