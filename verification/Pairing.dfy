/**
 `pair_event_responses`: each sent event takes the next unused answer that names its lot
 and CTE, whatever order the answers come in.
 */
module Pairing {
  import opened Common
  import opened Records

  datatype Key = Key(lot: string, cte: Cte)

  function KeyOf(e: Event): Key {
    Key(e.lot, e.cte)
  }

  /** None for an answer without a lot code or a CTE, or one that is not an object. */
  function AnswerKey(v: Verdict): Option<Key> {
    if v.lot.Some? && v.cte.Some? then Some(Key(v.lot.value, v.cte.value)) else None
  }

  predicate Names(v: Verdict, k: Key) {
    AnswerKey(v) == Some(k)
  }

  /** How many of the first `n` events have the key. */
  function CountKey(events: seq<Event>, n: nat, k: Key): (c: nat)
    requires n <= |events|
    ensures c <= n
  {
    if n == 0 then 0 else CountKey(events, n - 1, k) + if KeyOf(events[n - 1]) == k then 1 else 0
  }

  function Rank(events: seq<Event>, i: nat): nat
    requires i < |events|
  {
    CountKey(events, i, KeyOf(events[i]))
  }

  /** Where among the first `n` answers those naming the key stand. */
  function Places(answers: seq<Verdict>, n: nat, k: Key): (p: seq<nat>)
    requires n <= |answers|
    ensures forall j :: 0 <= j < |p| ==> p[j] < n && Names(answers[p[j]], k)
  {
    if n == 0 then []
    else Places(answers, n - 1, k) + if Names(answers[n - 1], k) then [n - 1] else []
  }

  function AnswersAmong(answers: seq<Verdict>, n: nat, k: Key): (r: seq<Verdict>)
    requires n <= |answers|
    ensures |r| == |Places(answers, n, k)|
    ensures forall j :: 0 <= j < |r| ==> r[j] == answers[Places(answers, n, k)[j]]
  {
    var p := Places(answers, n, k);
    seq(|p|, j requires 0 <= j < |p| => answers[p[j]])
  }

  /** The answers for one key, in order. */
  function Answers(answers: seq<Verdict>, k: Key): seq<Verdict> {
    AnswersAmong(answers, |answers|, k)
  }

  /** Which answer the `i`-th event takes. */
  function Chosen(events: seq<Event>, answers: seq<Verdict>, i: nat): Option<nat>
    requires i < |events|
  {
    var p := Places(answers, |answers|, KeyOf(events[i]));
    if Rank(events, i) < |p| then Some(p[Rank(events, i)]) else None
  }

  function Paired(events: seq<Event>, answers: seq<Verdict>, i: nat): Option<Verdict>
    requires i < |events|
  {
    var q := Answers(answers, KeyOf(events[i]));
    if Rank(events, i) < |q| then Some(q[Rank(events, i)]) else None
  }

  // ------------------------------------------------------------------ the loops

  function Queue(queues: map<Key, seq<Verdict>>, k: Key): seq<Verdict> {
    if k in queues then queues[k] else []
  }

  lemma QueueGrows(answers: seq<Verdict>, n: nat, k: Key)
    requires n < |answers|
    ensures AnswersAmong(answers, n + 1, k)
      == AnswersAmong(answers, n, k) + if Names(answers[n], k) then [answers[n]] else []
  {}

  /** The queues hold the first `n` answers, by key. */
  ghost predicate Queued(queues: map<Key, seq<Verdict>>, answers: seq<Verdict>, n: nat)
    requires n <= |answers|
  {
    forall k :: Queue(queues, k) == AnswersAmong(answers, n, k)
  }

  lemma QueuedNext(queues: map<Key, seq<Verdict>>, queues': map<Key, seq<Verdict>>, answers: seq<Verdict>, n: nat)
    requires n < |answers| && Queued(queues, answers, n)
    requires var key := AnswerKey(answers[n]);
      queues' == if key.Some? then queues[key.value := Queue(queues, key.value) + [answers[n]]] else queues
    ensures Queued(queues', answers, n + 1)
  {
    hide AnswersAmong;
    forall k ensures Queue(queues', k) == AnswersAmong(answers, n + 1, k) {
      QueueGrows(answers, n, k);
      assert Queue(queues, k) == AnswersAmong(answers, n, k);
    }
  }

  method ByKey(answers: seq<Verdict>) returns (queues: map<Key, seq<Verdict>>)
    ensures Queued(queues, answers, |answers|)
  {
    queues := map[];
    for i := 0 to |answers|
      invariant Queued(queues, answers, i)
    {
      hide Queued;
      ghost var before := queues;
      var key := AnswerKey(answers[i]);
      if key.Some? {
        queues := queues[key.value := Queue(queues, key.value) + [answers[i]]];
      }
      QueuedNext(before, queues, answers, i);
    }
  }

  function Drop<T>(s: seq<T>, n: nat): seq<T> {
    if n < |s| then s[n..] else []
  }

  /** What the queues hold once the first `n` events took their answers. */
  ghost predicate Remaining(queues: map<Key, seq<Verdict>>, events: seq<Event>, answers: seq<Verdict>, n: nat)
    requires n <= |events|
  {
    forall k :: Queue(queues, k) == Drop(Answers(answers, k), CountKey(events, n, k))
  }

  lemma AllRemain(queues: map<Key, seq<Verdict>>, events: seq<Event>, answers: seq<Verdict>)
    requires Queued(queues, answers, |answers|)
    ensures Remaining(queues, events, answers, 0)
  {
    forall k ensures Queue(queues, k) == Drop(Answers(answers, k), CountKey(events, 0, k)) {
      hide AnswersAmong;
      assert Queue(queues, k) == AnswersAmong(answers, |answers|, k);
    }
  }

  lemma DropNext<T>(s: seq<T>, n: nat)
    ensures Drop(s, n + 1) == if Drop(s, n) != [] then Drop(s, n)[1..] else []
  {}

  lemma RemainingNext(queues: map<Key, seq<Verdict>>, queues': map<Key, seq<Verdict>>,
                      events: seq<Event>, answers: seq<Verdict>, n: nat)
    requires n < |events| && Remaining(queues, events, answers, n)
    requires var queue := Queue(queues, KeyOf(events[n]));
      queues' == if queue != [] then queues[KeyOf(events[n]) := queue[1..]] else queues
    ensures Remaining(queues', events, answers, n + 1)
  {
    hide Answers, KeyOf, Drop;
    forall k ensures Queue(queues', k) == Drop(Answers(answers, k), CountKey(events, n + 1, k)) {
      assert Queue(queues, k) == Drop(Answers(answers, k), CountKey(events, n, k));
      DropNext(Answers(answers, k), CountKey(events, n, k));
    }
  }

  lemma NextInQueue(queues: map<Key, seq<Verdict>>, events: seq<Event>, answers: seq<Verdict>, n: nat)
    requires n < |events| && Remaining(queues, events, answers, n)
    ensures var queue := Queue(queues, KeyOf(events[n]));
      Paired(events, answers, n) == if queue != [] then Some(queue[0]) else None
  {
    hide Answers, CountKey;
  }

  method PairEventResponses(events: seq<Event>, answers: seq<Verdict>) returns (paired: seq<Option<Verdict>>)
    ensures |paired| == |events|
    ensures forall i :: 0 <= i < |events| ==> paired[i] == Paired(events, answers, i)
  {
    hide *;
    var queues := ByKey(answers);
    AllRemain(queues, events, answers);
    paired := [];
    for i := 0 to |events|
      invariant |paired| == i
      invariant forall j :: 0 <= j < i ==> paired[j] == Paired(events, answers, j)
      invariant Remaining(queues, events, answers, i)
    {
      ghost var before := queues;
      var k := KeyOf(events[i]);
      var queue := Queue(queues, k);
      NextInQueue(queues, events, answers, i);
      if queue != [] {
        paired := paired + [Some(queue[0])];
        queues := queues[k := queue[1..]];
      } else {
        paired := paired + [None];
      }
      RemainingNext(before, queues, events, answers, i);
    }
  }

  // ----------------------------------------------------- each answer at most once

  lemma {:induction false} PlacesIncrease(answers: seq<Verdict>, n: nat, k: Key, i: nat, j: nat)
    requires n <= |answers| && i < j < |Places(answers, n, k)|
    ensures Places(answers, n, k)[i] < Places(answers, n, k)[j]
  {
    if j < |Places(answers, n - 1, k)| {
      PlacesIncrease(answers, n - 1, k, i, j);
    }
  }

  lemma {:induction false} CountKeyMonotone(events: seq<Event>, m: nat, n: nat, k: Key)
    requires m <= n <= |events|
    ensures CountKey(events, m, k) <= CountKey(events, n, k)
  {
    if m == n {
    } else {
      CountKeyMonotone(events, m, n - 1, k);
    }
  }

  /** An event takes an answer with its own key, and no two events take the same one. */
  lemma UsedAtMostOnce(events: seq<Event>, answers: seq<Verdict>, i: nat, j: nat)
    requires i < j < |events|
    ensures Chosen(events, answers, i).Some? ==>
      Names(answers[Chosen(events, answers, i).value], KeyOf(events[i]))
    ensures Chosen(events, answers, i).Some? && Chosen(events, answers, j).Some? ==>
      Chosen(events, answers, i) != Chosen(events, answers, j)
  {
    var k := KeyOf(events[j]);
    if KeyOf(events[i]) == k {
      CountKeyMonotone(events, i + 1, j, k);
      if Rank(events, j) < |Places(answers, |answers|, k)| {
        PlacesIncrease(answers, |answers|, k, Rank(events, i), Rank(events, j));
      }
    }
  }

  lemma {:induction false} RankIsHit(events: seq<Event>, m: nat, k: Key, c: nat) returns (j: nat)
    requires m <= |events| && c < CountKey(events, m, k)
    ensures j < m && KeyOf(events[j]) == k && CountKey(events, j, k) == c
  {
    if c < CountKey(events, m - 1, k) {
      j := RankIsHit(events, m - 1, k, c);
    } else {
      j := m - 1;
    }
  }

  lemma {:induction false} PlaceOf(answers: seq<Verdict>, n: nat, p: nat, k: Key)
    requires p < n <= |answers| && Names(answers[p], k)
    ensures |Places(answers, p, k)| < |Places(answers, n, k)|
    ensures Places(answers, n, k)[|Places(answers, p, k)|] == p
  {
    if p == n - 1 {
    } else {
      PlaceOf(answers, n - 1, p, k);
    }
  }

  /** An event is left without a verdict only when earlier events took every answer that
      names its key. */
  lemma UnansweredMeansUsedUp(events: seq<Event>, answers: seq<Verdict>, i: nat, p: nat) returns (j: nat)
    requires i < |events| && Chosen(events, answers, i).None?
    requires p < |answers| && Names(answers[p], KeyOf(events[i]))
    ensures j < i && Chosen(events, answers, j) == Some(p)
  {
    var k := KeyOf(events[i]);
    PlaceOf(answers, |answers|, p, k);
    j := RankIsHit(events, i, k, |Places(answers, p, k)|);
  }

  // ------------------------------------------------------------------ own verdicts

  /** `own[i]` is the verdict on event `i`. */
  ghost predicate Own(events: seq<Event>, own: seq<Verdict>) {
    |own| == |events| && forall i :: 0 <= i < |own| ==> Names(own[i], KeyOf(events[i]))
  }

  ghost predicate Right(events: seq<Event>, own: seq<Verdict>, answers: seq<Verdict>)
    requires |own| == |events|
  {
    forall i :: 0 <= i < |events| ==> Paired(events, answers, i) == Some(own[i])
  }

  lemma {:induction false} OwnCount(events: seq<Event>, own: seq<Verdict>, n: nat, k: Key)
    requires Own(events, own) && n <= |own|
    ensures |Places(own, n, k)| == CountKey(events, n, k)
  {
    if n == 0 {
    } else {
      OwnCount(events, own, n - 1, k);
    }
  }

  /** The verdict on event `i` is the one of its rank among those of its key. */
  lemma OwnRank(events: seq<Event>, own: seq<Verdict>, i: nat)
    requires Own(events, own) && i < |own|
    ensures Rank(events, i) < |Answers(own, KeyOf(events[i]))|
    ensures Answers(own, KeyOf(events[i]))[Rank(events, i)] == own[i]
  {
    PlaceOf(own, |own|, i, KeyOf(events[i]));
    OwnCount(events, own, i, KeyOf(events[i]));
  }

  ghost predicate KeepsOrder(own: seq<Verdict>, answers: seq<Verdict>, k: Key) {
    Answers(own, k) <= Answers(answers, k)
  }

  lemma RightAtRank(events: seq<Event>, own: seq<Verdict>, answers: seq<Verdict>, k: Key, c: nat)
    requires Own(events, own) && Right(events, own, answers) && c < |Answers(own, k)|
    ensures c < |Answers(answers, k)| && Answers(answers, k)[c] == Answers(own, k)[c]
  {
    hide CountKey, Places, AnswersAmong;
    OwnCount(events, own, |own|, k);
    var i := RankIsHit(events, |events|, k, c);
    OwnRank(events, own, i);
    assert Paired(events, answers, i) == Some(own[i]);
  }

  lemma RightKeepsOrder(events: seq<Event>, own: seq<Verdict>, answers: seq<Verdict>, k: Key)
    requires Own(events, own) && Right(events, own, answers)
    ensures KeepsOrder(own, answers, k)
  {
    hide Answers, Right;
    var n := |Answers(own, k)|;
    if n > 0 {
      RightAtRank(events, own, answers, k, n - 1);
    }
    forall c | 0 <= c < n ensures Answers(answers, k)[c] == Answers(own, k)[c] {
      RightAtRank(events, own, answers, k, c);
    }
  }

  /** Every event gets its own verdict if and only if, key by key, the answers begin with
      the verdicts of that key in request order. How the keys interleave does not matter. */
  lemma PairedRightIffOrderKept(events: seq<Event>, own: seq<Verdict>, answers: seq<Verdict>)
    requires Own(events, own)
    ensures Right(events, own, answers) <==> forall k :: KeepsOrder(own, answers, k)
  {
    if Right(events, own, answers) {
      forall k ensures KeepsOrder(own, answers, k) {
        RightKeepsOrder(events, own, answers, k);
      }
    }
    if forall k :: KeepsOrder(own, answers, k) {
      forall i | 0 <= i < |events| ensures Paired(events, answers, i) == Some(own[i]) {
        OwnRank(events, own, i);
        assert KeepsOrder(own, answers, KeyOf(events[i]));
      }
    }
  }

  // ------------------------------------------------------------ answers in phases

  /** The verdicts of one phase, in request order. */
  function InPhase(s: seq<Verdict>, phase: Verdict -> nat, t: nat): (r: seq<Verdict>)
    ensures forall v :: v in r ==> phase(v) == t
  {
    if s == [] then []
    else InPhase(s[..|s| - 1], phase, t) + if phase(s[|s| - 1]) == t then [s[|s| - 1]] else []
  }

  /** A response built phase by phase. */
  function Phased(s: seq<Verdict>, phase: Verdict -> nat, m: nat): seq<Verdict> {
    if m == 0 then [] else Phased(s, phase, m - 1) + InPhase(s, phase, m - 1)
  }

  ghost predicate PhasesBelow(s: seq<Verdict>, phase: Verdict -> nat, m: nat) {
    forall i :: 0 <= i < |s| ==> phase(s[i]) < m
  }

  ghost predicate Ordered(s: seq<Verdict>, phase: Verdict -> nat) {
    forall i, j :: 0 <= i < j < |s| ==> phase(s[i]) <= phase(s[j])
  }

  lemma {:induction false} PlacesOfPrefix(s: seq<Verdict>, t: seq<Verdict>, n: nat, k: Key)
    requires n <= |s|
    ensures Places(s + t, n, k) == Places(s, n, k)
  {
    if n == 0 {
    } else {
      PlacesOfPrefix(s, t, n - 1, k);
    }
  }

  lemma AnswersSnoc(s: seq<Verdict>, v: Verdict, k: Key)
    ensures Answers(s + [v], k) == if Names(v, k) then Answers(s, k) + [v] else Answers(s, k)
  {
    PlacesOfPrefix(s, [v], |s|, k);
  }

  lemma NoAnswers(k: Key)
    ensures Answers([], k) == []
  {}

  lemma {:induction false} AnswersCat(s: seq<Verdict>, t: seq<Verdict>, k: Key)
    ensures Answers(s + t, k) == Answers(s, k) + Answers(t, k)
  {
    hide Answers, Names;
    if t == [] {
      assert s + t == s;
      NoAnswers(k);
    } else {
      var front, v := t[..|t| - 1], t[|t| - 1];
      AnswersCat(s, front, k);
      AnswersSnoc(s + front, v, k);
      AnswersSnoc(front, v, k);
      assert s + front + [v] == s + t && front + [v] == t;
    }
  }

  lemma InPhaseSnoc(s: seq<Verdict>, v: Verdict, phase: Verdict -> nat, t: nat)
    ensures InPhase(s + [v], phase, t) == if phase(v) == t then InPhase(s, phase, t) + [v] else InPhase(s, phase, t)
  {
    assert (s + [v])[..|s|] == s;
  }

  lemma {:induction false} PhaseOfAnswers(s: seq<Verdict>, phase: Verdict -> nat, t: nat, k: Key)
    ensures Answers(InPhase(s, phase, t), k) == InPhase(Answers(s, k), phase, t)
  {
    hide AnswersAmong;
    if s == [] {
    } else {
      var front, v := s[..|s| - 1], s[|s| - 1];
      assert s == front + [v];
      PhaseOfAnswers(front, phase, t, k);
      AnswersSnoc(front, v, k);
      AnswersSnoc(InPhase(front, phase, t), v, k);
      InPhaseSnoc(Answers(front, k), v, phase, t);
      InPhaseSnoc(front, v, phase, t);
    }
  }

  lemma {:induction false} PhasedAnswers(s: seq<Verdict>, phase: Verdict -> nat, m: nat, k: Key)
    ensures Answers(Phased(s, phase, m), k) == Phased(Answers(s, k), phase, m)
  {
    hide InPhase, Answers;
    if m > 0 {
      PhasedAnswers(s, phase, m - 1, k);
      PhaseOfAnswers(s, phase, m - 1, k);
      AnswersCat(Phased(s, phase, m - 1), InPhase(s, phase, m - 1), k);
    } else {
      NoAnswers(k);
    }
  }

  lemma {:induction false} PhasedIsOrdered(s: seq<Verdict>, phase: Verdict -> nat, m: nat)
    ensures Ordered(Phased(s, phase, m), phase) && PhasesBelow(Phased(s, phase, m), phase, m)
  {
    if m == 0 {
    } else {
      PhasedIsOrdered(s, phase, m - 1);
    }
  }

  lemma {:induction false} LaterPhaseIsEmpty(s: seq<Verdict>, phase: Verdict -> nat, t: nat)
    requires forall i :: 0 <= i < |s| ==> phase(s[i]) < t
    ensures InPhase(s, phase, t) == []
  {
    if s == [] {
    } else {
      LaterPhaseIsEmpty(s[..|s| - 1], phase, t);
    }
  }

  lemma {:induction false} PhasedSnoc(s: seq<Verdict>, v: Verdict, phase: Verdict -> nat, m: nat)
    requires forall i :: 0 <= i < |s| ==> phase(s[i]) <= phase(v)
    ensures Phased(s + [v], phase, m) == if phase(v) < m then Phased(s, phase, m) + [v] else Phased(s, phase, m)
  {
    hide InPhase;
    if m == 0 {
    } else {
      PhasedSnoc(s, v, phase, m - 1);
      InPhaseSnoc(s, v, phase, m - 1);
      if phase(v) < m - 1 {
        LaterPhaseIsEmpty(s, phase, m - 1);
        assert Phased(s + [v], phase, m) == Phased(s, phase, m - 1) + [v] + [];
      } else if phase(v) == m - 1 {
        assert Phased(s + [v], phase, m) == Phased(s, phase, m - 1) + (InPhase(s, phase, m - 1) + [v]);
      }
    }
  }

  lemma {:induction false} PhasedEmpty(phase: Verdict -> nat, m: nat)
    ensures Phased([], phase, m) == []
  {
    if m == 0 {
    } else {
      PhasedEmpty(phase, m - 1);
    }
  }

  lemma {:induction false} OrderedIsPhased(s: seq<Verdict>, phase: Verdict -> nat, m: nat)
    requires Ordered(s, phase) && PhasesBelow(s, phase, m)
    ensures Phased(s, phase, m) == s
  {
    if s == [] {
      PhasedEmpty(phase, m);
    } else {
      OrderedIsPhased(s[..|s| - 1], phase, m);
      PhasedSnoc(s[..|s| - 1], s[|s| - 1], phase, m);
      assert s[..|s| - 1] + [s[|s| - 1]] == s;
    }
  }

  /** No event of a key is answered in a later phase than one that follows it. */
  ghost predicate PhasesFollowRequest(events: seq<Event>, own: seq<Verdict>, phase: Verdict -> nat)
    requires |own| == |events|
  {
    forall i, j :: 0 <= i < j < |events| && KeyOf(events[i]) == KeyOf(events[j]) ==> phase(own[i]) <= phase(own[j])
  }

  lemma AnswersOrdered(events: seq<Event>, own: seq<Verdict>, phase: Verdict -> nat, k: Key)
    requires Own(events, own) && PhasesFollowRequest(events, own, phase)
    ensures Ordered(Answers(own, k), phase)
  {
    var p := Places(own, |own|, k);
    forall i, j | 0 <= i < j < |p| ensures phase(own[p[i]]) <= phase(own[p[j]]) {
      PlacesIncrease(own, |own|, k, i, j);
      assert KeyOf(events[p[i]]) == k == KeyOf(events[p[j]]);
    }
  }

  lemma AnswersBelow(own: seq<Verdict>, phase: Verdict -> nat, m: nat, k: Key)
    requires PhasesBelow(own, phase, m)
    ensures PhasesBelow(Answers(own, k), phase, m)
  {}

  lemma PairOrdered(events: seq<Event>, own: seq<Verdict>, phase: Verdict -> nat, i: nat, j: nat)
    requires Own(events, own) && i < j < |events| && KeyOf(events[i]) == KeyOf(events[j])
    requires Ordered(Answers(own, KeyOf(events[i])), phase)
    ensures phase(own[i]) <= phase(own[j])
  {
    OwnRank(events, own, i);
    OwnRank(events, own, j);
    CountKeyMonotone(events, i + 1, j, KeyOf(events[i]));
  }

  /** A response built in phases is paired right if and only if, within each key, the
      phases follow the request order. */
  lemma PhasesPairedRightIff(events: seq<Event>, own: seq<Verdict>, phase: Verdict -> nat, m: nat)
    requires Own(events, own) && PhasesBelow(own, phase, m)
    ensures Right(events, own, Phased(own, phase, m)) <==> PhasesFollowRequest(events, own, phase)
  {
    assert |own| == |events|;
    hide Answers, Phased, Own, Right, KeyOf;
    var answers := Phased(own, phase, m);
    PairedRightIffOrderKept(events, own, answers);
    if PhasesFollowRequest(events, own, phase) {
      forall k ensures KeepsOrder(own, answers, k) {
        PhasedAnswers(own, phase, m, k);
        AnswersOrdered(events, own, phase, k);
        AnswersBelow(own, phase, m, k);
        OrderedIsPhased(Answers(own, k), phase, m);
      }
    }
    if Right(events, own, answers) {
      forall i, j | 0 <= i < j < |events| && KeyOf(events[i]) == KeyOf(events[j])
        ensures phase(own[i]) <= phase(own[j])
      {
        var k := KeyOf(events[i]);
        assert KeepsOrder(own, answers, k);
        PhasedAnswers(own, phase, m, k);
        PhasedIsOrdered(Answers(own, k), phase, m);
        PairOrdered(events, own, phase, i, j);
      }
    }
  }

  function RejectedFirst(v: Verdict): nat {
    if v.accepted then 1 else 0
  }

  /** With every rejection before every acceptance: right exactly when no accepted event is
      followed by a rejected one of the same lot and CTE. */
  lemma RejectedFirstPairedRightIff(events: seq<Event>, own: seq<Verdict>)
    requires Own(events, own)
    ensures Right(events, own, Phased(own, RejectedFirst, 2)) <==>
      forall i, j :: 0 <= i < j < |events| && KeyOf(events[i]) == KeyOf(events[j]) && own[i].accepted ==> own[j].accepted
  {
    PhasesPairedRightIff(events, own, RejectedFirst, 2);
  }

  /** An answer in request order is always paired right. */
  lemma RequestOrderIsRight(events: seq<Event>, own: seq<Verdict>)
    requires Own(events, own)
    ensures Right(events, own, own)
  {
    PairedRightIffOrderKept(events, own, own);
  }
}
