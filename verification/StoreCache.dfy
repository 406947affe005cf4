/**
 The parsed-log cache of `EventStore` on its own: what a read answers and caches while the
 log changes under it, and over any run exactly when a hit answers with what the file says.
 */
module StoreCache {
  import opened Common
  import opened Records
  import opened Sorting
  import opened StoreSpec

  /** (mtime_ns, size) */
  datatype Stamp = Stamp(mtime: int, size: int)

  datatype File = File(lines: seq<Record>, stamp: Stamp)

  datatype Cached = Cached(key: Stamp, records: seq<Record>)

  /** What another process does to the log. */
  datatype Outside = Untouched | Rewrites(file: File) | Removes

  /** What a read depends on: the configured path's log, the ring and the cache. */
  datatype Shelf = Shelf(log: Option<File>, ring: seq<Record>, cache: Option<Cached>)

  function Disturbed(log: Option<File>, o: Outside): Option<File> {
    match o
    case Untouched => log
    case Rewrites(file) => Some(file)
    case Removes => None
  }

  function KeyOf(log: Option<File>): Option<Stamp> {
    if log.Some? then Some(log.value.stamp) else None
  }

  function LinesOf(log: Option<File>): seq<Record> {
    if log.Some? then log.value.lines else []
  }

  /** A parsed file, or the ring when nothing could be read. */
  function Answer(lines: seq<Record>, ring: seq<Record>): seq<Record> {
    SortBySeq(if lines != [] then lines else ring)
  }

  predicate Hit(s: Shelf) {
    s.cache.Some? && KeyOf(s.log) == Some(s.cache.value.key)
  }

  /** Another process may write between the first look at the stamp and the read, and
      between the read and the second look; only an unchanged stamp is cached. */
  function Read(s: Shelf, during: Outside, afterwards: Outside): (Shelf, seq<Record>) {
    if Hit(s) then (s, s.cache.value.records)
    else
      var seen := Disturbed(s.log, during);
      var left := Disturbed(seen, afterwards);
      var records := Answer(LinesOf(seen), s.ring);
      var kept := s.log.Some? && KeyOf(left) == KeyOf(s.log);
      (Shelf(left, s.ring, if kept then Some(Cached(s.log.value.stamp, records)) else None), records)
  }

  /** A read nobody disturbs answers the file by number, or the ring when the file has nothing,
      and a second one right behind it is a hit with the same answer. */
  lemma SecondReadHits(s: Shelf)
    requires s.log.Some? && !Hit(s)
    ensures var (left, records) := Read(s, Untouched, Untouched);
      && left.log == s.log && left.ring == s.ring
      && records == SortBySeq(if s.log.value.lines == [] then s.ring else s.log.value.lines)
      && Hit(left) && Read(left, Untouched, Untouched) == (left, records)
  {
    hide SortBySeq;
  }

  // ------------------------------------------------------------------ what a stamp stands for

  ghost predicate Stands(contentOf: Stamp -> seq<Record>, log: Option<File>) {
    log.Some? ==> contentOf(log.value.stamp) == log.value.lines
  }

  ghost predicate HonestOutside(contentOf: Stamp -> seq<Record>, o: Outside) {
    o.Rewrites? ==> Stands(contentOf, Some(o.file))
  }

  /** The cache holds what its stamp stands for. */
  ghost predicate Sound(contentOf: Stamp -> seq<Record>, cache: Option<Cached>) {
    cache.Some? ==> cache.value.records == SortBySeq(contentOf(cache.value.key))
  }

  /** A read caches something else than the file it first looked at holds. */
  predicate Misreads(s: Shelf, during: Outside, afterwards: Outside) {
    var seen := Disturbed(s.log, during);
    && !Hit(s) && s.log.Some? && KeyOf(Disturbed(seen, afterwards)) == KeyOf(s.log)
    && Answer(LinesOf(seen), s.ring) != SortBySeq(s.log.value.lines)
  }

  predicate OneSided(during: Outside, afterwards: Outside) {
    during.Untouched? || afterwards.Untouched?
  }

  lemma SortedIsNothingIff(s: seq<Record>)
    ensures SortBySeq(s) == [] <==> s == []
  {}

  /** Unless other processes write on both sides of it, a read caches something else only
      when the file is there, is empty, and the ring is not. */
  lemma MisreadsIff(contentOf: Stamp -> seq<Record>, s: Shelf, during: Outside, afterwards: Outside)
    requires Stands(contentOf, s.log) && HonestOutside(contentOf, during) && OneSided(during, afterwards)
    ensures Misreads(s, during, afterwards) <==>
      && !Hit(s) && KeyOf(Disturbed(Disturbed(s.log, during), afterwards)) == KeyOf(s.log) && s.log.Some?
      && s.log.value.lines == [] && s.ring != []
  {
    hide SortBySeq;
    SortedIsNothingIff(s.ring);
    SortedIsNothingIff([]);
  }

  // ------------------------------------------------------------------ whole runs

  /** Every write, reset, change of path or other process leaves some log and some ring, and
      the cache as it was. */
  datatype Event = Changes(log: Option<File>, ring: seq<Record>) | Reads(during: Outside, afterwards: Outside)

  function After(s: Shelf, e: Event): Shelf {
    match e
    case Changes(log, ring) => Shelf(log, ring, s.cache)
    case Reads(during, afterwards) => Read(s, during, afterwards).0
  }

  function Played(s: Shelf, events: seq<Event>): Shelf
    decreases |events|
  {
    if events == [] then s else After(Played(s, events[..|events| - 1]), events[|events| - 1])
  }

  ghost predicate HonestEvent(contentOf: Stamp -> seq<Record>, e: Event) {
    match e
    case Changes(log, _) => Stands(contentOf, log)
    case Reads(during, afterwards) => HonestOutside(contentOf, during) && HonestOutside(contentOf, afterwards)
  }

  /** The last read that filled the cache was a misread. */
  predicate FromMisread(s: Shelf, events: seq<Event>)
    decreases |events|
  {
    events != [] &&
      var front, last := events[..|events| - 1], events[|events| - 1];
      if last.Reads? && !Hit(Played(s, front)) then Misreads(Played(s, front), last.during, last.afterwards)
      else FromMisread(s, front)
  }

  lemma ReadIsSoundIff(contentOf: Stamp -> seq<Record>, s: Shelf, during: Outside, afterwards: Outside)
    requires Stands(contentOf, s.log) && HonestOutside(contentOf, during) && HonestOutside(contentOf, afterwards)
    ensures var s' := Read(s, during, afterwards).0;
      && Stands(contentOf, s'.log)
      && (!Hit(s) ==> (Sound(contentOf, s'.cache) <==> !Misreads(s, during, afterwards)))
  {
    hide SortBySeq;
  }

  lemma HitChangesNothing(s: Shelf, during: Outside, afterwards: Outside)
    ensures Hit(s) ==> Read(s, during, afterwards) == (s, s.cache.value.records)
  {}

  /** Whatever is written, read and disturbed: the cache holds what its stamp stands for if
      and only if the read that filled it was no misread. */
  lemma {:induction false} SoundUnlessMisread(contentOf: Stamp -> seq<Record>, s: Shelf, events: seq<Event>)
    requires Stands(contentOf, s.log) && Sound(contentOf, s.cache)
    requires forall k :: 0 <= k < |events| ==> HonestEvent(contentOf, events[k])
    ensures Stands(contentOf, Played(s, events).log)
    ensures Sound(contentOf, Played(s, events).cache) <==> !FromMisread(s, events)
    decreases |events|
  {
    if events == [] {
    } else {
      hide Stands, Sound, Misreads, Read;
      var front, last := events[..|events| - 1], events[|events| - 1];
      SoundUnlessMisread(contentOf, s, front);
      if last.Reads? {
        ReadIsSoundIff(contentOf, Played(s, front), last.during, last.afterwards);
        HitChangesNothing(Played(s, front), last.during, last.afterwards);
      }
    }
  }

  /** So over any run a hit answers with what the file says, in order, exactly then. */
  lemma HitIsRightIff(contentOf: Stamp -> seq<Record>, s: Shelf, events: seq<Event>, during: Outside, afterwards: Outside)
    requires Stands(contentOf, s.log) && Sound(contentOf, s.cache)
    requires forall k :: 0 <= k < |events| ==> HonestEvent(contentOf, events[k])
    requires Hit(Played(s, events))
    ensures var now := Played(s, events);
      Read(now, during, afterwards).1 == SortBySeq(LinesOf(now.log)) <==> !FromMisread(s, events)
  {
    hide SortBySeq, Played, FromMisread;
    SoundUnlessMisread(contentOf, s, events);
  }

  ghost predicate AllOneSided(events: seq<Event>) {
    forall k :: 0 <= k < |events| && events[k].Reads? ==> OneSided(events[k].during, events[k].afterwards)
  }

  /** The cache is sound except perhaps for what it holds under an empty file's stamp. */
  ghost predicate AlmostSound(contentOf: Stamp -> seq<Record>, cache: Option<Cached>) {
    cache.Some? && contentOf(cache.value.key) != [] ==> Sound(contentOf, cache)
  }

  /** And if no read has other writers on both sides, only an empty file is ever answered
      with anything else. */
  lemma {:induction false} OnlyEmptyFilesMislead(contentOf: Stamp -> seq<Record>, s: Shelf, events: seq<Event>)
    requires Stands(contentOf, s.log) && AlmostSound(contentOf, s.cache) && AllOneSided(events)
    requires forall k :: 0 <= k < |events| ==> HonestEvent(contentOf, events[k])
    ensures Stands(contentOf, Played(s, events).log) && AlmostSound(contentOf, Played(s, events).cache)
    decreases |events|
  {
    if events == [] {
    } else {
      hide SortBySeq, Misreads;
      var front, last := events[..|events| - 1], events[|events| - 1];
      OnlyEmptyFilesMislead(contentOf, s, front);
      if last.Reads? {
        ReadIsSoundIff(contentOf, Played(s, front), last.during, last.afterwards);
        MisreadsIff(contentOf, Played(s, front), last.during, last.afterwards);
      }
    }
  }
}
