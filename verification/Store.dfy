/**
 `EventStore`: the methods that keep the ring, the counter, the count and the parsed-log
 cache while they write the files, proved against StoreSpec.
 */
module Store {
  import opened Common
  import opened Records
  import opened StoreSpec
  import opened StoreStory
  import opened StoreEffects
  import opened StoreCache

  type Path = string

  /** The log at a path, if it exists, and the archive beside it. */
  datatype Files = Files(log: Option<File>, archive: seq<Record>)

  /** Records by id: of two with one id the last one wins. */
  function ById(records: seq<Record>): map<nat, Record> {
    if records == [] then map[]
    else ById(records[..|records| - 1])[records[|records| - 1].id := records[|records| - 1]]
  }

  method DictById(records: seq<Record>) returns (patch: map<nat, Record>)
    ensures patch == ById(records)
  {
    patch := map[];
    for i := 0 to |records|
      invariant patch == ById(records[..i])
    {
      patch := patch[records[i].id := records[i]];
      assert records[..i + 1][..i] == records[..i];
    }
    assert records[..|records|] == records;
  }

  /** The last of the records with that id. */
  predicate LastGiven(records: seq<Record>, k: nat, id: nat)
    requires k < |records|
  {
    records[k].id == id && forall j :: k < j < |records| ==> records[j].id != id
  }

  lemma {:induction false} ByIdIsLast(records: seq<Record>, k: nat, id: nat)
    requires k < |records| && LastGiven(records, k, id)
    ensures id in ById(records) && ById(records)[id] == records[k]
  {
    if k < |records| - 1 {
      assert LastGiven(records[..|records| - 1], k, id);
      ByIdIsLast(records[..|records| - 1], k, id);
    }
  }

  lemma {:induction false} ByIdIsGiven(records: seq<Record>, id: nat)
    ensures id in ById(records) <==> exists k :: 0 <= k < |records| && records[k].id == id
    ensures KeysAreIds(ById(records))
  {
    if records == [] {
    } else {
      var front := records[..|records| - 1];
      assert records == front + [records[|records| - 1]];
      ByIdIsGiven(front, id);
    }
  }

  /** The list with those of its records replaced whose ids the new ones have: each under its
      old number, in its old place, by the last that has its id. */
  ghost predicate Substituted(before: seq<Record>, after: seq<Record>, records: seq<Record>) {
    && |after| == |before|
    && (forall i :: 0 <= i < |before| ==> after[i].id == before[i].id && after[i].seqNo == before[i].seqNo)
    && (forall i :: 0 <= i < |before| && (forall k :: 0 <= k < |records| ==> records[k].id != before[i].id) ==>
          after[i] == before[i])
    && (forall i, k :: 0 <= i < |before| && 0 <= k < |records| && LastGiven(records, k, before[i].id) ==>
          after[i] == records[k].(seqNo := before[i].seqNo))
  }

  /** None of the new records has an id that occurs twice. */
  ghost predicate EachOnce(live: seq<Record>, records: seq<Record>) {
    forall i, j, k :: 0 <= i < j < |live| && 0 <= k < |records| && live[i].id == live[j].id ==> records[k].id != live[i].id
  }

  lemma PatchesSubstitute(before: seq<Record>, after: seq<Record>, records: seq<Record>)
    requires Patches(before, after, ById(records))
    ensures Substituted(before, after, records)
  {
    hide ById;
    var patch := ById(records);
    ByIdIsGiven(records, 0);
    PatchesKeepIds(before, after, patch);
    forall i | 0 <= i < |before| && forall k :: 0 <= k < |records| ==> records[k].id != before[i].id
      ensures after[i] == before[i]
    {
      ByIdIsGiven(records, before[i].id);
    }
    forall i, k | 0 <= i < |before| && 0 <= k < |records| && LastGiven(records, k, before[i].id)
      ensures after[i] == records[k].(seqNo := before[i].seqNo)
    {
      ByIdIsLast(records, k, before[i].id);
    }
  }

  lemma EachOnceIsReplacedOnce(live: seq<Record>, records: seq<Record>)
    ensures EachOnce(live, records) <==> ReplacedOnce(live, ById(records))
  {
    hide ById;
    forall id ensures id in ById(records) <==> exists k :: 0 <= k < |records| && records[k].id == id {
      ByIdIsGiven(records, id);
    }
  }

  /** What an update that reached the disk did to a consistent store. */
  lemma UpdateSubstitutes(b: Bounds, g: Log, records: seq<Record>)
    requires Consistent(b, g) && EachOnce(g.live, records)
    ensures Substituted(g.live, Update(b, g, ById(records), true).live, records)
  {
    hide ById, Update, Substituted, Consistent, EachOnce, ReplacedOnce;
    EachOnceIsReplacedOnce(g.live, records);
    UpdatePatches(b, g, ById(records));
    PatchesSubstitute(g.live, Update(b, g, ById(records), true).live, records);
  }

  /** Those of the rewritten records that were to be replaced. */
  function Replacements(updated: seq<Record>, patch: map<nat, Record>): seq<Record> {
    if updated == [] then []
    else
      var front := Replacements(updated[..|updated| - 1], patch);
      var last := updated[|updated| - 1];
      if last.id in patch then front + [last] else front
  }

  lemma NoReplacements(updated: seq<Record>)
    ensures Replacements(updated, map[]) == []
  {}

  lemma NoPatch(current: seq<Record>)
    ensures ById([]) == map[] && Replacements(Updated(current, ById([])), ById([])) == []
  {
    NoReplacements(Updated(current, map[]));
  }

  lemma SomePatch(records: seq<Record>)
    requires records != []
    ensures ById(records) != map[]
  {
    assert records[|records| - 1].id in ById(records);
  }

  /** The loop of `update_many`. A replaced slot holds a reference to the replacement,
      whose number each slot with that id overwrites in turn. */
  method PatchAll(current: seq<Record>, patch: map<nat, Record>) returns (updated: seq<Record>)
    ensures updated == Updated(current, patch)
  {
    var shared := patch;
    for i := 0 to |current|
      invariant shared.Keys == patch.Keys
      invariant forall id :: id in patch ==>
        shared[id] == if HasId(current, i, id)
                      then patch[id].(seqNo := current[LastWith(current, i, id)].seqNo) else patch[id]
    {
      var id := current[i].id;
      if id in shared {
        shared := shared[id := shared[id].(seqNo := current[i].seqNo)];
      }
      assert HasId(current, i + 1, id);
    }
    updated := seq(|current|, k requires 0 <= k < |current| =>
      if current[k].id in shared then shared[current[k].id] else current[k]);
    forall k | 0 <= k < |current| ensures updated[k] == Patched(current, patch, k) {
      assert HasId(current, |current|, current[k].id);
    }
  }

  lemma {:induction false} ReplacementsAre(updated: seq<Record>, patch: map<nat, Record>, r: Record)
    ensures r in Replacements(updated, patch) <==> r in updated && r.id in patch
  {
    if updated == [] {
    } else {
      assert updated == updated[..|updated| - 1] + [updated[|updated| - 1]];
      ReplacementsAre(updated[..|updated| - 1], patch, r);
    }
  }

  /** The log with the new records substituted, and of those it returns what it now holds. */
  ghost predicate Exchanged(g: Log, g': Log, records: seq<Record>, returned: seq<Record>) {
    && Substituted(g.live, g'.live, records)
    && forall r :: r in returned <==> r in g'.live && exists k :: 0 <= k < |records| && records[k].id == r.id
  }

  /** What `update_many` leaves and returns when it read what the log holds. */
  lemma UpdateExchanges(b: Bounds, g: Log, records: seq<Record>)
    requires Consistent(b, g) && EachOnce(g.live, records)
    ensures var g' := Update(b, g, ById(records), true);
      var updated := Updated(SortBySeq(g.live), ById(records));
      Consistent(b, g') && Exchanged(g, g', records, Replacements(updated, ById(records)))
  {
    hide ById, Substituted, EachOnce, ReplacedOnce, Replacements, Increasing, SortBySeq;
    var patch := ById(records);
    var updated := Updated(SortBySeq(g.live), patch);
    EachOnceIsReplacedOnce(g.live, records);
    UpdateKeepsStory(b, g, patch, true);
    UpdateSubstitutes(b, g, records);
    SortOfIncreasing(g.live);
    UpdatedDistinctIffIdsAre(g.live, patch);
    SortOfIncreasing(updated);
    forall r ensures r in Replacements(updated, patch)
      <==> r in Update(b, g, patch, true).live && exists k :: 0 <= k < |records| && records[k].id == r.id
    {
      ReplacementsAre(updated, patch, r);
      ByIdIsGiven(records, r.id);
    }
  }

  /** A consistent store never answers an empty file from a ring with records. */
  lemma EmptyTogether(b: Bounds, g: Log)
    requires Consistent(b, g)
    ensures g.live == [] ==> g.ring == []
    ensures SortBySeq(g.live) == g.live
  {
    SortOfIncreasing(g.live);
  }

  /** What `add_many` leaves. */
  lemma WhatAppendLeaves(b: Bounds, g: Log, records: seq<Record>, f: Faults)
    requires 1 <= b.maxHistory
    ensures Consistent(b, g) ==>
      var g' := Append(b, g, records, f).0;
      Consistent(b, g') && Appends(b, g, g', records, f, g.live + Stored(g, records, f))
  {
    if Consistent(b, g) {
      AppendKeepsStory(b, g, records, f);
      var all := AppendLeaves(b, g, records, f);
    }
  }

  lemma {:induction false} PushFirstSnoc(b: Bounds, ring: seq<Record>, stored: seq<Record>, r: Record, n: nat)
    requires n <= |stored|
    ensures PushFirst(b, ring, stored + [r], n) == PushFirst(b, ring, stored, n)
  {
    if n == 0 {
    } else {
      PushFirstSnoc(b, ring, stored, r, n - 1);
    }
  }

  lemma CommittedNone(b: Bounds, g: Log)
    ensures Committed(b, g, []) == g
  {}

  lemma NumberNone(records: seq<Record>, from: int)
    ensures Number(records[..0], from) == []
  {}

  lemma CommittedCounts(b: Bounds, g: Log, stored: seq<Record>)
    ensures Committed(b, g, stored).counter == g.counter + |stored|
  {}

  lemma CommittedSnoc(b: Bounds, g: Log, stored: seq<Record>, r: Record)
    ensures Committed(b, Committed(b, g, stored), [r]) == Committed(b, g, stored + [r])
  {
    PushFirstSnoc(b, g.ring, stored, r, |stored|);
    assert PushFirst(b, PushAll(b, g.ring, stored), [r], 0) == PushAll(b, g.ring, stored);
    assert g.live + stored + [r] == g.live + (stored + [r]);
  }

  lemma NumberSnoc(records: seq<Record>, i: nat, from: int)
    requires i < |records|
    ensures Number(records[..i + 1], from) == Number(records[..i], from) + [records[i].(seqNo := from + 1 + i)]
  {}

  class EventStore {
    const bounds: Bounds
    const clock: (seq<Record>, nat) -> Stamp           // the stamp a write leaves
    ghost const contentOf: Stamp -> seq<Record>        // a stamp never stands for two contents
    var path: Path
    var here: Files                      // the files of the configured path
    var elsewhere: map<Path, Files>      // those of every other path
    var ring: seq<Record>
    var counter: int
    var count: int
    var cache: Option<Cached>
    var tick: nat

    ghost predicate Valid()
      reads this
    {
      && 1 <= bounds.maxHistory
      && (forall lines, t :: contentOf(clock(lines, t)) == lines)
      && Stands(contentOf, here.log)
      && (forall p :: p in elsewhere ==> Stands(contentOf, elsewhere[p].log))
    }

    function Lines(): seq<Record>
      reads this
    {
      LinesOf(here.log)
    }

    function View(): Log
      reads this
    {
      Log(Lines(), here.archive, ring, counter, count)
    }

    function Shelf(): Shelf
      reads this
    {
      StoreCache.Shelf(here.log, ring, cache)
    }

    ghost predicate CacheSound()
      reads this
    {
      Sound(contentOf, cache)
    }

    ghost predicate CacheAlmostSound()
      reads this
    {
      AlmostSound(contentOf, cache)
    }

    /** An undisturbed read leaves a sound cache: it hits one, or it does not answer an empty
        file from the ring. */
    ghost predicate ReadsSoundly()
      reads this
    {
      if Hit(Shelf()) then CacheSound() else here.log.None? || Lines() != [] || ring == []
    }

    // --------------------------------------------------------------- plumbing

    method WriteFile(lines: seq<Record>)
      requires Valid()
      modifies this`here, this`tick
      ensures Valid() && here.log.Some?
      ensures View() == old(View()).(live := lines)
    {
      here := here.(log := Some(File(lines, clock(lines, tick))));
      tick := tick + 1;
    }

    method ArchiveRecords(records: seq<Record>)
      requires Valid()
      modifies this`here
      ensures Valid() && here.log == old(here.log)
      ensures View() == old(View()).(archive := old(here.archive) + records)
    {
      here := here.(archive := here.archive + records);
    }

    method SetRecords(oldestFirst: seq<Record>)
      modifies this`ring
      ensures View() == old(View()).(ring := Ring(bounds, oldestFirst))
    {
      ring := Ring(bounds, oldestFirst);
    }

    method LoadFromDisk()
      requires Valid()
      modifies this`ring, this`counter, this`count
      ensures View() == Load(bounds, old(View()))
    {
      var records := Lines();
      SetRecords(records);
      counter := Highest(records);
      count := |records|;
    }

    constructor (bounds: Bounds, clock: (seq<Record>, nat) -> Stamp, ghost contentOf: Stamp -> seq<Record>,
                 path: Path, here: Files, elsewhere: map<Path, Files>)
      requires 1 <= bounds.maxHistory
      requires forall lines, t :: contentOf(clock(lines, t)) == lines
      requires Stands(contentOf, here.log)
      requires forall p :: p in elsewhere ==> Stands(contentOf, elsewhere[p].log)
      ensures Valid() && CacheSound()
      ensures this.bounds == bounds && this.clock == clock && this.contentOf == contentOf
      ensures this.path == path && this.here == here && this.elsewhere == elsewhere && this.cache == None
      ensures View() == Load(bounds, View())
    {
      this.bounds, this.clock, this.contentOf := bounds, clock, contentOf;
      this.path, this.here, this.elsewhere := path, here, elsewhere;
      this.ring, this.counter, this.count := [], 0, 0;
      this.cache, this.tick := None, 0;
      new;
      LoadFromDisk();
    }

    method Configure(path: Path)
      requires Valid()
      modifies this
      ensures Valid() && this.path == path && cache == old(cache)
      ensures here == if path == old(this.path) then old(here)
                      else if path in old(elsewhere) then old(elsewhere)[path] else Files(None, [])
      ensures path != old(this.path) ==> elsewhere == old(elsewhere)[old(this.path) := old(here)]
      ensures View() == Load(bounds, View())
      ensures Increasing(Lines()) ==> Consistent(bounds, View())
    {
      if path != this.path {
        var there := if path in elsewhere then elsewhere[path] else Files(None, []);
        elsewhere := elsewhere[this.path := here];
        this.path, here := path, there;
      }
      LoadFromDisk();
    }

    /** Another process replaces or removes the log. */
    method OutsideWrite(o: Outside)
      requires Valid() && HonestOutside(contentOf, o)
      modifies this`here
      ensures Valid() && here == old(here).(log := Disturbed(old(here.log), o))
    {
      here := here.(log := Disturbed(here.log, o));
    }

    // ------------------------------------------------------------ the parsed-log cache

    /** `_all_records_unlocked`, while other processes write. */
    method AllRecords(during: Outside, afterwards: Outside) returns (records: seq<Record>)
      requires Valid() && HonestOutside(contentOf, during) && HonestOutside(contentOf, afterwards)
      modifies this`here, this`cache
      ensures Valid() && here.archive == old(here.archive)
      ensures (Shelf(), records) == Read(old(Shelf()), during, afterwards)
    {
      hide Stands, Answer;
      var key := KeyOf(here.log);
      if key.Some? && cache.Some? && cache.value.key == key.value {
        return cache.value.records;
      }
      OutsideWrite(during);
      records := Answer(Lines(), ring);
      OutsideWrite(afterwards);
      if key.Some? && key == KeyOf(here.log) {
        cache := Some(Cached(key.value, records));
      } else {
        cache := None;
      }
    }

    /** What a read answers now. */
    function Current(): seq<Record>
      reads this
    {
      Read(Shelf(), Untouched, Untouched).1
    }

    /** Undisturbed, a read leaves the files alone, and a sound cache if and only if it reads
        soundly: an empty file is answered from the ring, and that answer is cached. */
    method ReadAll() returns (records: seq<Record>)
      requires Valid() && CacheAlmostSound()
      modifies this`here, this`cache
      ensures Valid() && CacheAlmostSound() && here == old(here) && (CacheSound() <==> old(ReadsSoundly()))
      ensures Shelf() == Read(old(Shelf()), Untouched, Untouched).0 && records == old(Current())
      ensures Lines() != [] || (ring == [] && old(CacheSound())) ==> records == SortBySeq(Lines())
    {
      hide SortBySeq;
      ReadIsSoundIff(contentOf, Shelf(), Untouched, Untouched);
      MisreadsIff(contentOf, Shelf(), Untouched, Untouched);
      records := AllRecords(Untouched, Untouched);
    }

    // ----------------------------------------------------------------- appending

    method ArchiveAndTrim(records: seq<Record>, f: Faults)
      requires Valid() && bounds.maxHistory < |records|
      modifies this`here, this`ring, this`count, this`tick
      ensures Valid()
      ensures View() == Trim(bounds, old(View()), records, f)
    {
      var overflow := records[..|records| - bounds.maxHistory];
      var retained := records[|records| - bounds.maxHistory..];
      ArchiveRecords(overflow[..Min(f.archived, |overflow|)]);
      if |overflow| <= f.archived && f.swapped {
        WriteFile(retained);
        SetRecords(retained);
        count := |retained|;
      }
    }

    method RotateHistoryIfNeeded(f: Faults)
      requires Valid() && CacheAlmostSound() && Lines() != []
      modifies this`here, this`ring, this`counter, this`count, this`cache, this`tick
      ensures Valid() && CacheAlmostSound()
      ensures View() == Rotate(bounds, old(View()), f)
      ensures if RotationDue(bounds, old(View())) && f.readable
              then cache == Read(old(Shelf()), Untouched, Untouched).0.cache && CacheSound() else cache == old(cache)
    {
      var slack := Slack(bounds);
      if count <= bounds.maxHistory + slack || !f.readable {
        return;
      }
      var records := ReadAll();
      if |records| <= bounds.maxHistory {
        count := |records|;
      } else {
        ArchiveAndTrim(records, f);
      }
    }

    /** One record: number it, write its line, then commit it to memory. */
    method AppendOne(record: Record) returns (stored: Record)
      requires Valid()
      modifies this`here, this`ring, this`counter, this`count, this`tick
      ensures Valid() && stored == record.(seqNo := old(counter) + 1)
      ensures View() == Committed(bounds, old(View()), [stored])
    {
      stored := record.(seqNo := counter + 1);
      WriteFile(Lines() + [stored]);
      counter := counter + 1;
      count := count + 1;
      ring := Push(bounds, ring, stored);
      assert PushFirst(bounds, old(ring), [stored], 0) == old(ring);
    }

    /** The loop of `_append_many`, up to the record whose write fails. */
    method AppendLines(records: seq<Record>, lines: nat) returns (stored: seq<Record>)
      requires Valid()
      modifies this`here, this`ring, this`counter, this`count, this`tick
      ensures Valid() && stored == Number(records[..Min(lines, |records|)], old(counter))
      ensures View() == Committed(bounds, old(View()), stored)
    {
      hide Committed, Number, Stands;
      ghost var before := View();
      WriteFile(Lines());
      stored := [];
      CommittedNone(bounds, before);
      NumberNone(records, before.counter);
      for i := 0 to |records|
        invariant i <= lines && Valid()
        invariant stored == Number(records[..i], before.counter)
        invariant View() == Committed(bounds, before, stored) && counter == before.counter + i
      {
        if i == lines {
          return;
        }
        var record := AppendOne(records[i]);
        CommittedSnoc(bounds, before, stored, record);
        CommittedCounts(bounds, before, stored + [record]);
        NumberSnoc(records, i, before.counter);
        stored := stored + [record];
      }
    }

    /** `add_many`. `ok` is false when it raises. */
    method AppendMany(records: seq<Record>, f: Faults) returns (stored: seq<Record>, ok: bool)
      requires Valid() && CacheAlmostSound()
      modifies this`here, this`ring, this`counter, this`count, this`cache, this`tick
      ensures Valid() && CacheAlmostSound()
      ensures (View(), ok) == Append(bounds, old(View()), records, f)
      ensures stored == Stored(old(View()), records, f)
      ensures |stored| == Min(f.lines, |records|)
      ensures forall i :: 0 <= i < |stored| ==> stored[i] == records[i].(seqNo := old(counter) + 1 + i)
      ensures ok <==> |records| <= f.lines && (records == [] || f.synced)
      ensures old(Consistent(bounds, View())) ==>
        Consistent(bounds, View()) && Appends(bounds, old(View()), View(), records, f, old(Lines()) + stored)
      // Only the rotation reads, and the log it reads is not empty.
      ensures if ok && stored != [] && RotationDue(bounds, Committed(bounds, old(View()), stored)) && f.readable
              then CacheSound() else cache == old(cache)
    {
      stored := AppendLines(records, f.lines);
      ok := |stored| == |records| && (stored == [] || f.synced);
      if ok && stored != [] {
        RotateHistoryIfNeeded(f);
      }
      WhatAppendLeaves(bounds, old(View()), records, f);
    }

    // ----------------------------------------------------------------- rewriting

    /** A rewrite that reached the disk: memory follows the file. */
    method Publish(persisted: seq<Record>, loaded: seq<Record>)
      requires Valid()
      modifies this`here, this`ring, this`counter, this`count, this`tick
      ensures Valid()
      ensures View() == Log(persisted, old(here.archive), Ring(bounds, loaded), Highest(persisted), |persisted|)
    {
      WriteFile(persisted);
      SetRecords(loaded);
      counter := Highest(persisted);
      count := |persisted|;
    }

    /** `update_many`. `ok` is false when it raises. An empty file is read from the ring. */
    method UpdateRecords(records: seq<Record>, swapped: bool) returns (updated: seq<Record>, ok: bool)
      requires Valid() && CacheAlmostSound()
      modifies this`here, this`ring, this`counter, this`count, this`cache, this`tick
      ensures Valid() && CacheAlmostSound()
      ensures View() == UpdateFrom(bounds, old(View()), old(Current()), ById(records), swapped)
      ensures ok <==> swapped || records == []
      ensures ok ==> updated == Replacements(Updated(old(Current()), ById(records)), ById(records))
      ensures cache == if records == [] then old(cache) else Read(old(Shelf()), Untouched, Untouched).0.cache
      ensures CacheSound() <==> if records == [] then old(CacheSound()) else old(ReadsSoundly())
      ensures old(CacheSound() && (Lines() != [] || ring == [])) ==>
        View() == Update(bounds, old(View()), ById(records), swapped)
      ensures !swapped ==> View() == old(View())
      ensures swapped && old(CacheSound() && Consistent(bounds, View()) && EachOnce(Lines(), records)) ==>
        Consistent(bounds, View()) && Exchanged(old(View()), View(), records, updated)
    {
      hide Consistent, Exchanged, EachOnce, Updated, Replacements, ById, Ring, SortBySeq;
      ghost var before := View();
      var patch := DictById(records);
      if Consistent(bounds, before) && EachOnce(before.live, records) {
        EmptyTogether(bounds, before);
        UpdateExchanges(bounds, before, records);
      }
      if records == [] {
        NoPatch(Current());
        return [], true;
      }
      SomePatch(records);
      var current := ReadAll();
      updated := PatchAll(current, patch);
      if !swapped {
        return [], false;
      }
      Publish(SortBySeq(updated), updated);
      updated := Replacements(updated, patch);
      ok := true;
    }

    /** `replace_all`. `ok` is false when it raises. */
    method ReplaceRecords(records: seq<Record>, swapped: bool) returns (persisted: seq<Record>, ok: bool)
      requires Valid()
      modifies this`here, this`ring, this`counter, this`count, this`tick
      ensures Valid()
      ensures View() == Replace(bounds, old(View()), records, swapped)
      ensures ok == swapped && (ok ==> persisted == Lines() && multiset(Lines()) == multiset(records))
      ensures if swapped then forall i, j :: 0 <= i < j < |Lines()| ==> Lines()[i].seqNo <= Lines()[j].seqNo
              else View() == old(View())
    {
      ReplaceLeaves(bounds, View(), records, swapped);
      persisted := SortBySeq(records);
      if !swapped {
        return [], false;
      }
      Publish(persisted, persisted);
      ok := true;
    }

    /** `reset`: memory first, then the file, if it can be removed. */
    method ResetStore(unlinked: bool)
      requires Valid()
      modifies this`here, this`ring, this`counter, this`count
      ensures Valid()
      ensures View() == Clear(old(View()), unlinked)
    {
      ring := [];
      counter := 0;
      count := 0;
      if unlinked {
        here := here.(log := None);
      }
    }

    /** Newest first. */
    function Recent(limit: nat): (r: seq<Record>)
      requires Consistent(bounds, View())
      reads this
      ensures |r| == Min(limit, Min(bounds.maxRecords, |Lines()|))
      ensures forall i :: 0 <= i < |r| ==> r[i] == Lines()[|Lines()| - 1 - i]
    {
      if |ring| <= limit then ring else ring[..limit]
    }
  }

  // ------------------------------------------------------- the cache and the empty file

  method OneRecordStore(clock: (seq<Record>, nat) -> Stamp, ghost contentOf: Stamp -> seq<Record>, r: Record)
    returns (store: EventStore)
    requires forall lines, t :: contentOf(clock(lines, t)) == lines
    ensures fresh(store) && store.Valid() && store.path == "log" && store.ring == [r] && store.cache == None
    ensures store.contentOf == contentOf
  {
    var file := File([r], clock([r], 0));
    store := new EventStore(Bounds(5000, 50000), clock, contentOf, "log", Files(Some(file), []), map[]);
  }

  /** Another process truncates the log; a read caches the ring under the empty file's stamp. */
  method ReadTruncated(clock: (seq<Record>, nat) -> Stamp, ghost contentOf: Stamp -> seq<Record>, r: Record)
    returns (store: EventStore)
    requires forall lines, t :: contentOf(clock(lines, t)) == lines
    ensures fresh(store) && store.Valid() && store.path == "log" && store.Lines() == [] && Hit(store.Shelf())
    ensures store.cache.value.records == [r]
  {
    store := OneRecordStore(clock, contentOf, r);
    var emptied := File([], clock([], 1));
    store.OutsideWrite(Rewrites(emptied));
    var first := store.AllRecords(Untouched, Untouched);
    SortOfIncreasing([r]);
  }

  /** After the store is configured again it still answers with a record that is gone. */
  method StaleAfterTruncation(clock: (seq<Record>, nat) -> Stamp, ghost contentOf: Stamp -> seq<Record>, r: Record)
    returns (store: EventStore, answer: seq<Record>)
    requires forall lines, t :: contentOf(clock(lines, t)) == lines
    ensures store.Valid() && Consistent(store.bounds, store.View())
    ensures store.Lines() == [] && store.ring == [] && answer == [r]
  {
    store := ReadTruncated(clock, contentOf, r);
    store.Configure("log");
    answer := store.AllRecords(Untouched, Untouched);
  }
}
