/**
 What one request does in each delivery mode, and how many requests a batch in pieces or a
 retry in groups makes before the store moves.
 */
module DeliveryEffects {
  import opened Common
  import opened Records
  import opened MockSpec
  import opened Pairing
  import opened Delivery
  import opened Retry
  import opened RetryTotals

  // ------------------------------------------------------------------ one request

  /** What an answer makes of a request for `sent` events. */
  predicate Counted(o: Outcome, sent: nat, result: Result<Reply, string>, at: int, key: string) {
    && o.attempts == 1 && o.key == Some(key)
    && (result.Err? ==>
          o.status == Failed && o.posted == 0 && o.failed == sent && o.reply.None? && o.completedAt.None?
          && o.error == Some(Transport(result.error)))
    && (result.Ok? ==> o.reply == Some(result.value) && o.completedAt == Some(at))
    && (result.Ok? && |result.value.events| != sent ==>
          o.status == Failed && o.posted == 0 && o.failed == sent && o.error.Some?)
    && (result.Ok? && |result.value.events| == sent ==>
          o.status == Posted && o.error.None?
          && o.posted == (if result.value.accepted.Some? then result.value.accepted.value else sent)
          && o.failed == (if result.value.rejected.Some? then result.value.rejected.value else 0))
  }

  /** Nothing goes out: the service stays, and the outcome is that of no attempt at all. */
  lemma WithoutDelivery(cfg: Config, m: Service, friction: seq<string>, events: seq<Event>,
                        key: Option<string>, w: World, i: nat)
    ensures var (m', o) := Deliver(cfg, m, NoDelivery, friction, events, key, w, i);
      && m' == m && o.status == Generated && o.posted == 0 && o.failed == 0 && o.attempts == 0
      && o.reply.None? && o.completedAt.None? && o.error.None? && o.key.None?
  {}

  /** The live service's answer to this very request is what counts; the mock is not asked. */
  lemma LiveDelivery(cfg: Config, m: Service, friction: seq<string>, events: seq<Event>,
                     key: Option<string>, w: World, i: nat)
    ensures var (m', o) := Deliver(cfg, m, Live, friction, events, key, w, i);
      && m' == m
      && Counted(o, |events|, w.live(i), w.clock(i), if key.Some? then key.value else w.minted(i))
  {}

  /** The mock is asked once, about these events under this key, and what it answers counts. */
  lemma MockDelivery(cfg: Config, m: Service, friction: seq<string>, events: seq<Event>,
                     key: Option<string>, w: World, i: nat)
    ensures var (m', o) := Deliver(cfg, m, Mock, friction, events, key, w, i);
      var used := if key.Some? then key.value else w.minted(i);
      var (asked, answer) := Ingest(cfg, m, Request(events, Some(used), friction, true, w.clock(i), w.wall(i)));
      && m' == asked
      && (answer.Err? ==> o.status == Failed && o.posted == 0 && o.failed == |events| && o.reply.None?)
      && (answer.Ok? ==>
            var reply := Reply(Some(answer.value.accepted), Some(answer.value.rejected), answer.value.events);
            Counted(o, |events|, Ok(reply), w.clock(i), used))
      && o.attempts == 1 && o.key == Some(used)
  {
    hide Ingest;
  }

  lemma {:induction false} NothingPaired(events: seq<Event>, i: nat)
    requires i < |events|
    ensures Paired(events, [], i).None?
  {
    NoAnswers(KeyOf(events[i]));
  }

  /** The record of an event after its request: untouched if nothing was sent; else posted
      exactly if the request went through and the event was not rejected, with its own verdict. */
  lemma RecordsTell(ids: seq<nat>, events: seq<Event>, parents: seq<seq<string>>, mode: Mode, o: Outcome, i: nat)
    requires |ids| == |parents| == |events| && i < |events|
    ensures var r := RecordsFor(ids, events, parents, mode, o)[i];
      && r.id == ids[i] && r.event == events[i] && r.parents == parents[i] && r.mode == mode
      && r.attempts == o.attempts && r.key == o.key
      && (o.reply.None? ==> r.verdict.None? && r.status == o.status && r.error == o.error)
      && (o.status == Generated && o.reply.None? ==> r.status == Generated && r.succeededAt.None?)
      && (r.status == Posted <==> o.status == Posted && (r.verdict.Some? ==> r.verdict.value.accepted))
      && (r.status == Posted ==> r.succeededAt == o.completedAt && r.error == o.error)
      && (r.status != Posted ==> r.succeededAt.None?)
      && (r.verdict.Some? ==>
            && o.reply.Some? && r.verdict.value in o.reply.value.events
            && r.verdict.value.lot == Some(events[i].lot) && r.verdict.value.cte == Some(events[i].cte))
  {
    NothingPaired(events, i);
    PairedAnswers(events, ReplyEvents(o), i);
  }

  lemma PairedAnswers(events: seq<Event>, answers: seq<Verdict>, i: nat)
    requires i < |events|
    ensures var v := Paired(events, answers, i);
      v.Some? ==> v.value in answers && v.value.lot == Some(events[i].lot) && v.value.cte == Some(events[i].cte)
  {}

  // ------------------------------------------------------------------ in pieces

  /** The store had not moved before any of the requests `from` to `to`. */
  ghost predicate WentOn(w: World, from: nat, to: nat) {
    forall k: nat :: from <= k < to ==> w.goOn(k)
  }

  /** Each chunk's outcome is that of its own request, made of the service the one before left. */
  ghost predicate Asked(cfg: Config, m: Service, m': Service, states: seq<Service>, mode: Mode, friction: seq<string>,
                        chunks: seq<Chunk>, w: World, i: nat)
  {
    && |states| == |chunks| + 1 && states[0] == m && states[|chunks|] == m'
    && forall k :: 0 <= k < |chunks| ==>
         (states[k + 1], chunks[k].outcome) == Deliver(cfg, states[k], mode, friction, chunks[k].events, None, w, i + k)
  }

  lemma AskedCons(cfg: Config, m: Service, next: Service, m': Service, states: seq<Service>, mode: Mode,
                  friction: seq<string>, first: Chunk, rest: seq<Chunk>, w: World, i: nat)
    requires Asked(cfg, next, m', states, mode, friction, rest, w, i + 1)
    requires (next, first.outcome) == Deliver(cfg, m, mode, friction, first.events, None, w, i)
    ensures Asked(cfg, m, m', [m] + states, mode, friction, [first] + rest, w, i)
  {
    hide Deliver;
    var all, chunks := [m] + states, [first] + rest;
    forall k | 0 <= k < |chunks|
      ensures (all[k + 1], chunks[k].outcome) == Deliver(cfg, all[k], mode, friction, chunks[k].events, None, w, i + k)
    {
      if k > 0 {
        assert (states[k], rest[k - 1].outcome)
          == Deliver(cfg, states[k - 1], mode, friction, rest[k - 1].events, None, w, i + 1 + (k - 1));
      }
    }
  }

  lemma NothingAsked(cfg: Config, m: Service, mode: Mode, friction: seq<string>, w: World, i: nat)
    ensures Asked(cfg, m, m, [m], mode, friction, [], w, i)
  {}

  /** So many pieces of that size are needed for so many events, or fewer are. */
  predicate Needs(n: nat, cap: nat, size: nat) {
    n > 0 ==> (n - 1) * cap < size
  }

  lemma OneMorePiece(n: nat, cap: nat, step: nat, size: nat)
    requires step <= size && 1 <= step <= cap && (step < cap ==> step == size) && Needs(n, cap, size - step)
    ensures Needs(n + 1, cap, size)
    ensures n * cap < size - step <==> (n + 1) * cap < size
  {
    assert (n + 1) * cap == n * cap + cap;
    if n > 0 {
      assert n * cap == (n - 1) * cap + cap;
    }
  }

  /** The requests stop at the first refusal and not before: every one made was allowed, all are
      needed, and if events are left over the next one was refused. */
  lemma {:induction false} SendingStopsAtRefusal(cfg: Config, m: Service, mode: Mode, friction: seq<string>,
                                                 events: seq<Event>, cap: nat, w: World, start: nat, i: nat)
      returns (states: seq<Service>)
    requires 1 <= cap && start <= |events|
    ensures var (m', chunks) := Sending(cfg, m, mode, friction, events, cap, w, start, i); var n := |chunks|;
      && Asked(cfg, m, m', states, mode, friction, chunks, w, i)
      && WentOn(w, i, i + n) && Needs(n, cap, |events| - start)
      && (n * cap < |events| - start ==> !w.goOn(i + n))
    decreases |events| - start
  {
    hide Deliver, Asked, Needs;
    if start == |events| || !w.goOn(i) {
      states := [m];
      NothingAsked(cfg, m, mode, friction, w, i);
      assert Needs(0, cap, |events| - start) by { NoPieces(cap, |events| - start); }
    } else {
      var stop := Upto(events, start, cap);
      var (next, outcome) := Deliver(cfg, m, mode, friction, events[start..stop], None, w, i);
      var (m', rest) := Sending(cfg, next, mode, friction, events, cap, w, stop, i + 1);
      var later := SendingStopsAtRefusal(cfg, next, mode, friction, events, cap, w, stop, i + 1);
      states := [m] + later;
      AskedCons(cfg, m, next, m', later, mode, friction, Chunk(events[start..stop], outcome), rest, w, i);
      OneMorePiece(|rest|, cap, stop - start, |events| - start);
    }
  }

  lemma NoPieces(cap: nat, size: nat)
    ensures Needs(0, cap, size)
  {}

  // ------------------------------------------------------------------ in groups

  /** Part `k` is group `k`, sent to the service the one before left, under its stored key if
      that may be used again. */
  ghost predicate AskedFor(cfg: Config, m: Service, m': Service, states: seq<Service>, friction: seq<string>,
                           keys: seq<GroupKey>, groups: map<GroupKey, seq<Record>>, parts: seq<Part>, w: World, j: nat)
  {
    && |states| == |parts| + 1 && states[0] == m && states[|parts|] == m' && j + |parts| <= |keys|
    && forall k :: 0 <= k < |parts| ==>
         SentAs(cfg, states[k], states[k + 1], friction, GroupAt(groups, keys[j + k]), keys[j + k].key, parts[k], w, j + k)
  }

  /** The group's events in one request: under the stored key only if there is one and no
      record of the group has an answer yet, else under a new one. */
  ghost predicate SentAs(cfg: Config, before: Service, after: Service, friction: seq<string>, group: seq<Record>,
                         key: Option<string>, part: Part, w: World, j: nat)
  {
    var again := key.Some? && forall r :: r in group ==> r.verdict.None?;
    && part.group == group
    && (after, part.outcome) == Deliver(cfg, before, Mock, friction, EventsIn(group), if again then key else None, w, j)
  }

  lemma SendIsSentAs(cfg: Config, m: Service, friction: seq<string>, group: seq<Record>, key: Option<string>, w: World, j: nat)
    ensures var (m', outcome) := Send(cfg, m, friction, group, key, w, j);
      SentAs(cfg, m, m', friction, group, key, Part(group, outcome), w, j)
  {
    hide Deliver;
    assert Reuses(group, key) <==> key.Some? && forall r :: r in group ==> r.verdict.None?;
  }

  lemma AskedForCons(cfg: Config, m: Service, next: Service, m': Service, states: seq<Service>, friction: seq<string>,
                     keys: seq<GroupKey>, groups: map<GroupKey, seq<Record>>, first: Part, rest: seq<Part>, w: World, j: nat)
    requires j < |keys| && AskedFor(cfg, next, m', states, friction, keys, groups, rest, w, j + 1)
    requires SentAs(cfg, m, next, friction, GroupAt(groups, keys[j]), keys[j].key, first, w, j)
    ensures AskedFor(cfg, m, m', [m] + states, friction, keys, groups, [first] + rest, w, j)
  {
    hide SentAs, GroupAt;
    var all, parts := [m] + states, [first] + rest;
    forall k | 0 <= k < |parts|
      ensures SentAs(cfg, all[k], all[k + 1], friction, GroupAt(groups, keys[j + k]), keys[j + k].key, parts[k], w, j + k)
    {
      if k > 0 {
        var l := k - 1;
        assert SentAs(cfg, states[l], states[l + 1], friction, GroupAt(groups, keys[j + 1 + l]), keys[j + 1 + l].key,
                      rest[l], w, j + 1 + l);
        assert j + 1 + l == j + k;
      }
    }
  }

  lemma NothingAskedFor(cfg: Config, m: Service, friction: seq<string>, keys: seq<GroupKey>,
                        groups: map<GroupKey, seq<Record>>, w: World, j: nat)
    requires j <= |keys|
    ensures AskedFor(cfg, m, m, [m], friction, keys, groups, [], w, j)
  {}

  /** A retry sends its groups in turn, up to the first refusal and not further. */
  lemma {:induction false} RetryingStopsAtRefusal(cfg: Config, m: Service, friction: seq<string>, keys: seq<GroupKey>,
                                                  groups: map<GroupKey, seq<Record>>, w: World, j: nat)
      returns (states: seq<Service>)
    requires j <= |keys|
    ensures var (m', parts) := Retrying(cfg, m, friction, keys, groups, w, j); var n := |parts|;
      && AskedFor(cfg, m, m', states, friction, keys, groups, parts, w, j)
      && WentOn(w, j, j + n) && j + n <= |keys| && (j + n < |keys| ==> !w.goOn(j + n))
    decreases |keys| - j
  {
    hide Send, AskedFor, GroupAt, SentAs;
    if j == |keys| || !w.goOn(j) {
      states := [m];
      NothingAskedFor(cfg, m, friction, keys, groups, w, j);
    } else {
      var group := GroupAt(groups, keys[j]);
      var (next, outcome) := Send(cfg, m, friction, group, keys[j].key, w, j);
      var (m', rest) := Retrying(cfg, next, friction, keys, groups, w, j + 1);
      var later := RetryingStopsAtRefusal(cfg, next, friction, keys, groups, w, j + 1);
      states := [m] + later;
      SendIsSentAs(cfg, m, friction, group, keys[j].key, w, j);
      AskedForCons(cfg, m, next, m', later, friction, keys, groups, Part(group, outcome), rest, w, j);
    }
  }
}
