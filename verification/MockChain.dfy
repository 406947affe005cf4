/**
 The hash chain over whole runs, and which events of a batch count as duplicates.
 */
module MockChain {
  import opened Common
  import opened Records
  import opened MockSpec

  /** The chain a list of accepted events makes from a starting hash. */
  function Fold(cfg: Config, start: Hash, events: seq<Event>): Hash {
    if events == [] then start
    else cfg.link(Fold(cfg, start, events[..|events| - 1]), cfg.digest(events[|events| - 1]))
  }

  /** The events among the first `n` whose verdict accepts. */
  function AcceptedOf(events: seq<Event>, verdicts: seq<Verdict>, n: nat): seq<Event>
    requires n <= |events| && n <= |verdicts|
  {
    if n == 0 then []
    else AcceptedOf(events, verdicts, n - 1) + if verdicts[n - 1].accepted then [events[n - 1]] else []
  }

  /** What has been accepted since the chain last started, and from which hash it did. */
  datatype Ledger = Ledger(start: Hash, events: seq<Event>)

  /** A call whose events were looked at: it did not raise and was not replayed. */
  predicate Looked(cfg: Config, m: Service, req: Request) {
    Gate(req).None? && !Replays(cfg, m, req)
  }

  function Entered(cfg: Config, m: Service, call: Option<Request>, ledger: Ledger): Ledger {
    if call.None? then Ledger("", [])
    else if !Looked(cfg, m, call.value) then ledger
    else
      var events := call.value.events;
      var verdicts := IngestFresh(cfg, m, call.value).1.events;
      ledger.(events := ledger.events + AcceptedOf(events, verdicts, |events|))
  }

  function Book(cfg: Config, m: Service, calls: seq<Option<Request>>): Ledger
    decreases |calls|
  {
    if calls == [] then Ledger(m.chain, [])
    else
      var front := calls[..|calls| - 1];
      Entered(cfg, Run(cfg, m, front), calls[|calls| - 1], Book(cfg, m, front))
  }

  lemma FoldSnoc(cfg: Config, start: Hash, xs: seq<Event>, e: Event)
    ensures Fold(cfg, start, xs + [e]) == cfg.link(Fold(cfg, start, xs), cfg.digest(e))
  {
    assert (xs + [e])[..|xs|] == xs;
  }

  lemma {:induction false} FoldCat(cfg: Config, start: Hash, xs: seq<Event>, ys: seq<Event>)
    ensures Fold(cfg, start, xs + ys) == Fold(cfg, Fold(cfg, start, xs), ys)
  {
    if ys == [] {
      assert xs + ys == xs;
    } else {
      FoldCat(cfg, start, xs, ys[..|ys| - 1]);
      assert (xs + ys)[..|xs + ys| - 1] == xs + ys[..|ys| - 1];
    }
  }

  lemma AcceptedSnoc(events: seq<Event>, verdicts: seq<Verdict>, n: nat)
    requires n < |events| && n < |verdicts|
    ensures AcceptedOf(events, verdicts, n + 1)
      == if verdicts[n].accepted then AcceptedOf(events, verdicts, n) + [events[n]] else AcceptedOf(events, verdicts, n)
  {}

  lemma ChainSnoc(cfg: Config, chain: Hash, events: seq<Event>, now: int, n: nat)
    requires n < |events|
    ensures ChainAfter(cfg, chain, events, now, n + 1)
      == if Verdicts(cfg, chain, events, now)[n].accepted
         then cfg.link(ChainAfter(cfg, chain, events, now, n), cfg.digest(events[n]))
         else ChainAfter(cfg, chain, events, now, n)
  {
    hide Accepts;
  }

  lemma FoldNext(cfg: Config, chain: Hash, events: seq<Event>, verdicts: seq<Verdict>, now: int, n: nat)
    requires n < |events| && verdicts == Verdicts(cfg, chain, events, now)
    requires ChainAfter(cfg, chain, events, now, n) == Fold(cfg, chain, AcceptedOf(events, verdicts, n))
    ensures ChainAfter(cfg, chain, events, now, n + 1) == Fold(cfg, chain, AcceptedOf(events, verdicts, n + 1))
  {
    AcceptedSnoc(events, verdicts, n);
    ChainSnoc(cfg, chain, events, now, n);
    FoldSnoc(cfg, chain, AcceptedOf(events, verdicts, n), events[n]);
    hide *;
  }

  /** Within a batch the tip after `n` events is the fold over the accepted ones. */
  lemma {:induction false} BatchIsFold(cfg: Config, chain: Hash, events: seq<Event>, now: int, n: nat)
    requires n <= |events|
    ensures ChainAfter(cfg, chain, events, now, n)
      == Fold(cfg, chain, AcceptedOf(events, Verdicts(cfg, chain, events, now), n))
  {
    hide VerdictAt, Accepts;
    if n == 0 {
    } else {
      BatchIsFold(cfg, chain, events, now, n - 1);
      FoldNext(cfg, chain, events, Verdicts(cfg, chain, events, now), now, n - 1);
    }
  }

  /** Over any run the tip is the fold of the hash over every event accepted since the chain
      last started, in order; what raised, was rejected or was replayed is not in it. */
  lemma {:induction false} TipIsFold(cfg: Config, m: Service, calls: seq<Option<Request>>)
    ensures var book := Book(cfg, m, calls);
      Run(cfg, m, calls).chain == Fold(cfg, book.start, book.events)
    decreases |calls|
  {
    if calls == [] {
    } else {
      var front := calls[..|calls| - 1];
      var call := calls[|calls| - 1];
      var before := Run(cfg, m, front);
      var book := Book(cfg, m, front);
      TipIsFold(cfg, m, front);
      if call.Some? && Looked(cfg, before, call.value) {
        var events := call.value.events;
        BatchIsFold(cfg, before.chain, events, call.value.now, |events|);
        FoldCat(cfg, book.start, book.events, AcceptedOf(events, Verdicts(cfg, before.chain, events, call.value.now), |events|));
      }
    }
  }

  lemma FreshVerdict(cfg: Config, m: Service, req: Request, i: nat)
    requires i < |req.events|
    ensures IngestFresh(cfg, m, req).1.events == Verdicts(cfg, m.chain, req.events, req.now)
    ensures var v := Verdicts(cfg, m.chain, req.events, req.now)[i];
      && v.lot == Some(req.events[i].lot) && v.cte == Some(req.events[i].cte)
      && (v.accepted <==> v.errors == [])
      && (v.accepted ==> v.chain == ChainAfter(cfg, m.chain, req.events, req.now, i + 1))
  {
    hide ErrorsAt, ChainAfter, AcceptedAmong;
  }

  /** Each fresh verdict names its own event, and an accepted one carries the fold over
      everything accepted up to and including its event. */
  lemma AcceptedCarriesTip(cfg: Config, m: Service, calls: seq<Option<Request>>, req: Request, i: nat)
    requires Looked(cfg, Run(cfg, m, calls), req) && i < |req.events|
    ensures var book := Book(cfg, m, calls);
      var verdicts := IngestFresh(cfg, Run(cfg, m, calls), req).1.events;
      && |verdicts| == |req.events|
      && verdicts[i].lot == Some(req.events[i].lot) && verdicts[i].cte == Some(req.events[i].cte)
      && (verdicts[i].accepted <==> verdicts[i].errors == [])
      && (verdicts[i].accepted ==>
            verdicts[i].chain == Fold(cfg, book.start, book.events + AcceptedOf(req.events, verdicts, i + 1)))
  {
    hide Gate, VerdictAt, ChainAfter, AcceptedOf, IngestFresh, Looked;
    var before := Run(cfg, m, calls);
    var book := Book(cfg, m, calls);
    FreshVerdict(cfg, before, req, i);
    TipIsFold(cfg, m, calls);
    BatchIsFold(cfg, before.chain, req.events, req.now, i + 1);
    FoldCat(cfg, book.start, book.events,
            AcceptedOf(req.events, Verdicts(cfg, before.chain, req.events, req.now), i + 1));
  }

  // -------------------------------------------------------------------- the age window

  lemma {:induction false} StaleCounted(cfg: Config, events: seq<Event>, now: int, n: nat)
    requires n <= |events|
    ensures cfg.enforceAge ==> StaleAmong(cfg, events, now, n) == 0
    ensures StaleAmong(cfg, events, now, n) == 0 && !cfg.enforceAge ==>
      forall i :: 0 <= i < n ==> !OutOfWindow(cfg, events[i], now)
  {
    if n == 0 {
    } else {
      StaleCounted(cfg, events, now, n - 1);
    }
  }

  /** A stale event is rejected exactly when the window is enforced; an answer counts bypassed
      events exactly when it is not, and counts none only if there were none. */
  lemma WindowIsEnforcedOrCounted(cfg: Config, chain: Hash, events: seq<Event>, now: int, i: nat)
    requires i < |events|
    ensures TooOld in Verdicts(cfg, chain, events, now)[i].errors <==> cfg.enforceAge && OutOfWindow(cfg, events[i], now)
    ensures OutOfWindow(cfg, events[i], now) ==>
      (cfg.enforceAge <==> Answer(cfg, chain, events, now).outOfWindow == 0)
  {
    hide BatchKey, AcceptedAmong, ChainAfter, StaleAmong;
    StaleCounted(cfg, events, now, |events|);
  }

  // -------------------------------------------------------------------- duplicates

  /** Two accepted events of one batch never share a batch key. */
  lemma AcceptedAreDistinct(cfg: Config, chain: Hash, events: seq<Event>, now: int, i: nat, j: nat)
    requires i < j < |events|
    requires Verdicts(cfg, chain, events, now)[i].accepted && Verdicts(cfg, chain, events, now)[j].accepted
    ensures BatchKey(cfg, events[i]) != BatchKey(cfg, events[j])
  {
    assert VerdictAt(cfg, chain, events, now, j).accepted;
  }

  predicate NoBar(s: string) {
    '|' !in s
  }

  /** Times are written without a bar, and different ones differently. */
  ghost predicate PlainTimes(cfg: Config) {
    && (forall t, o :: NoBar(cfg.iso(t, o)))
    && (forall t, o, u, p :: cfg.iso(t, o) == cfg.iso(u, p) ==> t == u && o == p)
  }

  /** What the fault is about: one CTE, lot, instant and location. */
  predicate SameFields(d: Event, e: Event) {
    d.cte == e.cte && d.lot == e.lot && d.timestamp == e.timestamp && Place(d) == Place(e)
  }

  /** The same, and the instant written with the same offset. */
  predicate SameWritten(d: Event, e: Event) {
    SameFields(d, e) && d.offset == e.offset
  }

  /** `y` begins with `x`, a bar and a time, and ends there or goes on with a bar. */
  predicate SpellsOut(cfg: Config, x: string, y: string, t: int, o: Option<int>) {
    var head := x + "|" + cfg.iso(t, o);
    y == head || head + "|" <= y
  }

  ghost predicate Follows(cfg: Config, x: string, y: string) {
    exists t, o :: SpellsOut(cfg, x, y, t, o)
  }

  /** Two lot codes of which one spells out the other with a time. */
  ghost predicate Clash(cfg: Config, x: string, y: string) {
    Follows(cfg, x, y) || Follows(cfg, y, x)
  }

  lemma BarAfter(a: string, x: string)
    requires NoBar(a)
    ensures var s := a + "|" + x;
      s[|a|] == '|' && s[..|a|] == a && s[|a| + 1..] == x && forall i :: 0 <= i < |a| ==> s[i] != '|'
  {}

  /** The part before the first bar is determined. */
  lemma FirstBar(a: string, x: string, b: string, y: string)
    requires NoBar(a) && NoBar(b) && a + "|" + x == b + "|" + y
    ensures a == b && x == y
  {
    BarAfter(a, x);
    BarAfter(b, y);
  }

  function NameLength(c: Cte): nat {
    match c
    case Harvesting => 10
    case Cooling => 7
    case InitialPacking => 15
    case FirstLandBasedReceiving => 26
    case Shipping => 8
    case Receiving => 9
    case Transformation => 14
  }

  lemma NameIsPlain(c: Cte)
    ensures NoBar(CteName(c)) && |CteName(c)| == NameLength(c)
  {}

  lemma CteNamesAreDistinct(c: Cte, d: Cte)
    ensures NoBar(CteName(c)) && (CteName(c) == CteName(d) ==> c == d)
  {
    hide CteName, NoBar;
    NameIsPlain(c);
    NameIsPlain(d);
  }

  /** What follows the CTE and the lot in a batch key. */
  function Rest(cfg: Config, e: Event): string {
    cfg.iso(e.timestamp, e.offset) + "|" + Place(e)
  }

  lemma KeyShape(cfg: Config, e: Event)
    ensures BatchKey(cfg, e) == CteName(e.cte) + "|" + (e.lot + "|" + Rest(cfg, e))
  {}

  /** Equal keys: the same CTE, and the same text behind it. */
  lemma KeysEqual(cfg: Config, d: Event, e: Event)
    ensures BatchKey(cfg, d) == BatchKey(cfg, e) <==> d.cte == e.cte && d.lot + "|" + Rest(cfg, d) == e.lot + "|" + Rest(cfg, e)
  {
    KeyShape(cfg, d);
    KeyShape(cfg, e);
    CteNamesAreDistinct(d.cte, e.cte);
    CteNamesAreDistinct(e.cte, d.cte);
    hide BatchKey, Rest, CteName;
    if BatchKey(cfg, d) == BatchKey(cfg, e) {
      FirstBar(CteName(d.cte), d.lot + "|" + Rest(cfg, d), CteName(e.cte), e.lot + "|" + Rest(cfg, e));
    }
  }

  lemma RestIsExact(cfg: Config, d: Event, e: Event)
    requires PlainTimes(cfg)
    ensures Rest(cfg, d) == Rest(cfg, e) <==> d.timestamp == e.timestamp && d.offset == e.offset && Place(d) == Place(e)
  {
    if Rest(cfg, d) == Rest(cfg, e) {
      FirstBar(cfg.iso(d.timestamp, d.offset), Place(d), cfg.iso(e.timestamp, e.offset), Place(e));
    }
  }

  /** A longer lot code goes on with what stood behind the shorter one. */
  lemma LongerLot(x: string, r: string, y: string, s: string) returns (z: string)
    requires x + "|" + r == y + "|" + s && |x| < |y|
    ensures y == x + "|" + z && r == z + "|" + s
  {
    var whole := x + "|" + r;
    z := y[|x| + 1..];
    assert whole[..|y|] == y && whole[|y| + 1..] == s && whole[|y|] == '|';
    assert y[..|x|] == whole[..|x|] == x && y[|x|] == whole[|x|] == '|';
    assert whole[|x| + 1..] == r;
  }

  /** A text with a time up front, cut at some bar: the cut is behind the time. */
  lemma CutBehindTime(time: string, place: string, z: string, s: string)
    requires NoBar(time) && time + "|" + place == z + "|" + s
    ensures z == time || time + "|" <= z
  {
    BarAfter(time, place);
    var whole := time + "|" + place;
    assert whole[..|z|] == z && whole[|z|] == '|';
    if |z| > |time| {
      assert z[..|time| + 1] == whole[..|time| + 1] == time + "|";
    }
  }

  lemma LongerLotSpellsOut(cfg: Config, d: Event, e: Event)
    requires PlainTimes(cfg) && d.lot + "|" + Rest(cfg, d) == e.lot + "|" + Rest(cfg, e) && |d.lot| < |e.lot|
    ensures Follows(cfg, d.lot, e.lot)
  {
    var z := LongerLot(d.lot, Rest(cfg, d), e.lot, Rest(cfg, e));
    var time := cfg.iso(d.timestamp, d.offset);
    CutBehindTime(time, Place(d), z, Rest(cfg, e));
    if z == time {
      assert SpellsOut(cfg, d.lot, e.lot, d.timestamp, d.offset);
    } else {
      assert z == time + "|" + z[|time| + 1..];
      assert e.lot == (d.lot + "|" + time + "|") + z[|time| + 1..];
      assert SpellsOut(cfg, d.lot, e.lot, d.timestamp, d.offset);
    }
  }

  lemma SameLengthLots(x: string, r: string, y: string, s: string)
    requires x + "|" + r == y + "|" + s && |x| == |y|
    ensures x == y && r == s
  {
    assert (x + "|" + r)[..|x|] == x && (y + "|" + s)[..|y|] == y;
    assert (x + "|" + r)[|x| + 1..] == r && (y + "|" + s)[|y| + 1..] == s;
  }

  /** For lots that do not clash the batch key tells exactly the fields as written apart. */
  lemma BatchKeyIsExact(cfg: Config, d: Event, e: Event)
    requires PlainTimes(cfg) && !Clash(cfg, d.lot, e.lot)
    ensures BatchKey(cfg, d) == BatchKey(cfg, e) <==> SameWritten(d, e)
  {
    hide BatchKey, Follows, Place;
    KeysEqual(cfg, d, e);
    RestIsExact(cfg, d, e);
    if BatchKey(cfg, d) == BatchKey(cfg, e) {
      if |d.lot| < |e.lot| {
        LongerLotSpellsOut(cfg, d, e);
      } else if |e.lot| < |d.lot| {
        LongerLotSpellsOut(cfg, e, d);
      } else {
        SameLengthLots(d.lot, Rest(cfg, d), e.lot, Rest(cfg, e));
      }
    }
  }

  /** Different events that the mock takes for one. */
  predicate Confused(cfg: Config, d: Event, e: Event) {
    BatchKey(cfg, d) == BatchKey(cfg, e) && !SameWritten(d, e)
  }

  /** Some events of these two lots are confused. */
  ghost predicate CanConfuse(cfg: Config, x: string, y: string) {
    exists d: Event, e: Event :: d.lot == x && e.lot == y && Confused(cfg, d, e)
  }

  /** The location that makes up for what the shorter lot code lacks. */
  lemma MissingTail(x: string, y: string, time: string, place: string) returns (tail: string)
    requires (y == x + "|" + time || x + "|" + time + "|" <= y) && place != ""
    ensures tail != "" && x + "|" + (time + "|" + tail) == y + "|" + (time + "|" + place)
  {
    var head := x + "|" + time;
    var last := time + "|" + place;
    if y == head {
      tail := last;
    } else {
      var z := y[|head| + 1..];
      tail := z + "|" + last;
      assert y == head + "|" + z;
    }
  }

  lemma SpelledOutConfuses(cfg: Config, base: Event, x: string, y: string, t: int, o: Option<int>) returns (d: Event, e: Event)
    requires SpellsOut(cfg, x, y, t, o)
    ensures d.lot == x && e.lot == y && Confused(cfg, d, e)
    ensures d == base.(lot := x, timestamp := t, offset := o, location := d.location)
    ensures e == base.(lot := y, timestamp := t, offset := o, location := "Dock")
  {
    hide BatchKey, CteName;
    assert |x| < |y|;
    var tail := MissingTail(x, y, cfg.iso(t, o), "Dock");
    hide SpellsOut;
    d := base.(lot := x, timestamp := t, offset := o, location := tail);
    e := base.(lot := y, timestamp := t, offset := o, location := "Dock");
    KeysEqual(cfg, d, e);
  }

  lemma ConfusedMeansClash(cfg: Config, d: Event, e: Event)
    requires PlainTimes(cfg) && Confused(cfg, d, e)
    ensures Clash(cfg, d.lot, e.lot)
  {
    hide BatchKey, Follows, Place;
    if !Clash(cfg, d.lot, e.lot) {
      BatchKeyIsExact(cfg, d, e);
    }
  }

  lemma ConfusedBothWays(cfg: Config, d: Event, e: Event)
    requires Confused(cfg, d, e)
    ensures Confused(cfg, e, d)
  {
    hide BatchKey, Place;
  }

  /** Events of two lots can be confused if and only if one lot code spells out the other. */
  lemma ConfusedIffClash(cfg: Config, base: Event, x: string, y: string)
    requires PlainTimes(cfg)
    ensures CanConfuse(cfg, x, y) <==> Clash(cfg, x, y)
  {
    hide Confused, SpellsOut, Place;
    if CanConfuse(cfg, x, y) {
      var d: Event, e: Event :| d.lot == x && e.lot == y && Confused(cfg, d, e);
      ConfusedMeansClash(cfg, d, e);
    }
    if Follows(cfg, x, y) {
      var t, o :| SpellsOut(cfg, x, y, t, o);
      var d, e := SpelledOutConfuses(cfg, base, x, y, t, o);
    }
    if Follows(cfg, y, x) {
      var t, o :| SpellsOut(cfg, y, x, t, o);
      var e, d := SpelledOutConfuses(cfg, base, y, x, t, o);
      ConfusedBothWays(cfg, e, d);
    }
  }

  ghost predicate NoClash(cfg: Config, events: seq<Event>) {
    forall i: nat, j: nat :: i < j < |events| ==> !Clash(cfg, events[i].lot, events[j].lot)
  }

  /** In a batch whose lots do not clash an event is called a duplicate exactly if an earlier
      one has the same CTE, lot, location and time as written. */
  lemma DuplicateIffRepeated(cfg: Config, events: seq<Event>, i: nat)
    requires PlainTimes(cfg) && NoClash(cfg, events) && i < |events|
    ensures Repeats(cfg, events, i) <==> exists j :: 0 <= j < i && SameWritten(events[j], events[i])
  {
    hide BatchKey, Clash, SameWritten, PlainTimes;
    if Repeats(cfg, events, i) {
      var j: nat :| j < i && BatchKey(cfg, events[j]) == BatchKey(cfg, events[i]);
      BatchKeyIsExact(cfg, events[j], events[i]);
    }
    if j: nat :| j < i && SameWritten(events[j], events[i]) {
      BatchKeyIsExact(cfg, events[j], events[i]);
      assert BatchKey(cfg, events[j]) == BatchKey(cfg, events[i]);
    }
  }

  /** A repeated event is noticed if and only if its instant is written with the same offset. */
  lemma RepeatNoticedIff(cfg: Config, d: Event, e: Event)
    requires PlainTimes(cfg) && SameFields(d, e)
    ensures BatchKey(cfg, d) == BatchKey(cfg, e) <==> d.offset == e.offset
  {
    hide BatchKey, Place;
    KeysEqual(cfg, d, e);
    RestIsExact(cfg, d, e);
    if BatchKey(cfg, d) == BatchKey(cfg, e) {
      SameLengthLots(d.lot, Rest(cfg, d), e.lot, Rest(cfg, e));
    }
  }

  /** One event written with two offsets is accepted twice. */
  lemma TwoOffsetsPass(cfg: Config, e: Event, o: Option<int>)
    requires PlainTimes(cfg) && e.located && e.complete && !cfg.enforceAge && o != e.offset
    ensures var batch := [e, e.(offset := o)];
      SameFields(batch[0], batch[1]) && Accepts(cfg, batch, 0, 0) && Accepts(cfg, batch, 0, 1)
  {
    hide BatchKey;
    var batch := [e, e.(offset := o)];
    RepeatNoticedIff(cfg, batch[0], batch[1]);
    assert !Repeats(cfg, batch, 1) && !Repeats(cfg, batch, 0);
  }

  /** A lot code that spells out another event's lot and time is taken for that event. */
  lemma BarsCollide(cfg: Config, base: Event, t: int) returns (d: Event, e: Event)
    requires base.located && base.complete && !cfg.enforceAge
    ensures d.lot != e.lot && Confused(cfg, d, e)
    ensures Accepts(cfg, [d, e], 0, 0) && !Accepts(cfg, [d, e], 0, 1)
  {
    d, e := SpelledOutConfuses(cfg, base, "LOT", "LOT|" + cfg.iso(t, None), t, None);
    hide BatchKey;
    assert |d.lot| < |e.lot|;
    var batch := [d, e];
    assert BatchKey(cfg, batch[0]) == BatchKey(cfg, batch[1]);
    assert Repeats(cfg, batch, 1) && !Repeats(cfg, batch, 0);
  }
}
