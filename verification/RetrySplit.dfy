/**
 What a split group costs: two records fail under one key, each is retried on its own, and
 the second reads posted although the mock never saw its event.
 */
module RetrySplit {
  import opened Common
  import opened Records
  import opened MockSpec
  import MockCache
  import opened Pairing
  import opened Delivery
  import opened DeliveryTotals
  import opened Retry
  import opened RetryRuns

  /** Two well-formed events of different lots, three requests within the replay window. */
  ghost predicate Scene(cfg: Config, w: World, d: Event, e: Event) {
    && KeyOf(d) != KeyOf(e) && w.minted(0) != ""
    && !FieldFault(d, w.clock(1), w.wall(1)) && !FieldFault(e, w.clock(2), w.wall(2))
    && w.clock(2) - w.clock(1) < cfg.ttl
  }

  const THROTTLED: seq<string> := ["rate_limit"]

  function Ops(w: World, d: Event, e: Event): (ops: seq<Op>)
    ensures forall k :: 0 <= k < |ops| ==> Usable(ops[k])
  {
    var key := Some(w.minted(0));
    [Op.Import([d, e], [0, 1], [[], []], THROTTLED, true), RetryOne({0}, key, [], true), RetryOne({1}, key, [], true)]
  }

  function FailedRecord(id: nat, event: Event, key: string): Record {
    Record(id, 0, event, [], Mock, Failed, 1, None, None, Some(Transport("HTTP error")), Some(key))
  }

  lemma ImportFails(cfg: Config, w: World, d: Event, e: Event)
    ensures Step(cfg, w, Lab(Service("", []), [], {}), Ops(w, d, e)[0], 0)
      == Lab(Service("", []), [FailedRecord(0, d, w.minted(0)), FailedRecord(1, e, w.minted(0))], {})
  {
    var outcome := Deliver(cfg, Service("", []), Mock, THROTTLED, [d, e], None, w, 0).1;
    assert Gate(RequestOf([d, e], w.minted(0), THROTTLED, w, 0)) == Some(429);
    NoAnswers(KeyOf(d));
    NoAnswers(KeyOf(e));
    assert Paired([d, e], [], 0) == None && Paired([d, e], [], 1) == None;
    assert RecordsFor([0, 1], [d, e], [[], []], Mock, outcome)
      == [FailedRecord(0, d, w.minted(0)), FailedRecord(1, e, w.minted(0))];
  }

  lemma GroupOfFirst(r: Record, s: Record, key: Option<string>)
    requires r.status == Failed && StoredKey(r) == key && r.id == 0 && s.id == 1
    ensures Group([r, s], 2, {0}, key) == [r] && Group([r, s], 0, {0}, key) == []
  {
    assert Group([r, s], 1, {0}, key) == Group([r, s], 0, {0}, key) + [r];
  }

  lemma GroupOfSecond(r: Record, s: Record, key: Option<string>)
    requires s.status == Failed && StoredKey(s) == key && r.id == 0 && s.id == 1
    ensures Group([r, s], 2, {1}, key) == [s] && Group([r, s], 1, {1}, key) == []
  {
    assert Group([r, s], 1, {1}, key) == Group([r, s], 0, {1}, key);
  }

  lemma OneGate(e: Event, key: string, w: World, i: nat)
    requires !FieldFault(e, w.clock(i), w.wall(i))
    ensures Gate(RequestOf([e], key, [], w, i)).None?
  {}

  lemma RetriedKeepsId(r: Record, outcome: Outcome, verdict: Option<Verdict>)
    ensures Retried(r, outcome, verdict).id == r.id
  {}

  /** The first record's retry is answered and cached under the key they share. */
  lemma FirstRetry(cfg: Config, w: World, d: Event, e: Event) returns (lab: Lab, r: Record, entry: Entry)
    requires Scene(cfg, w, d, e)
    ensures lab == Step(cfg, w, Lab(Service("", []), [FailedRecord(0, d, w.minted(0)), FailedRecord(1, e, w.minted(0))], {}),
                        Ops(w, d, e)[1], 1)
    ensures lab.log == [r, FailedRecord(1, e, w.minted(0))] && r.id == 0
    ensures lab.service.cache == [entry] && entry.key == w.minted(0) && entry.at == w.clock(1)
    ensures entry.response == Answer(cfg, "", [d], w.clock(1)) && 1 !in lab.ingested
  {
    hide Retried, HandlerErrors, FieldFault, ChainAfter, AcceptedAmong, StaleAmong, Paired, VerdictAt;
    var key := w.minted(0);
    var r0, r1 := FailedRecord(0, d, key), FailedRecord(1, e, key);
    var before := Lab(Service("", []), [r0, r1], {});
    GroupOfFirst(r0, r1, Some(key));
    assert EventsIn([r0]) == [d] && IdsIn([r0]) == [0];
    OneGate(d, key, w, 1);
    lab := Step(cfg, w, before, Ops(w, d, e)[1], 1);
    var outcome := Send(cfg, before.service, [], [r0], Some(key), w, 1).1;
    r := Patched([r0, r1], {0}, Some(key), outcome)[0];
    assert Patched([r0, r1], {0}, Some(key), outcome)[1] == r1;
    assert lab.log == [r, r1];
    entry := Entry(key, Answer(cfg, "", [d], w.clock(1)), w.clock(1));
    assert lab.service.cache == [entry];
    RetriedKeepsId(r0, outcome, Paired([d], ReplyEvents(outcome), 0));
  }

  lemma {:induction false} NobodyNames(answers: seq<Verdict>, k: Key)
    requires |answers| == 1 && !Names(answers[0], k)
    ensures Answers(answers, k) == []
  {
    assert Places(answers, 1, k) == Places(answers, 0, k);
  }

  lemma AnswerNames(cfg: Config, d: Event, now: int)
    ensures var events := Answer(cfg, "", [d], now).events; |events| == 1 && Names(events[0], KeyOf(d))
  {
    hide ErrorsAt, ChainAfter, StaleAmong, AcceptedAmong;
  }

  /** The second is answered with the first one's verdict: no verdict of its own, and posted. */
  lemma SecondRetry(cfg: Config, w: World, d: Event, e: Event, lab: Lab, r: Record, entry: Entry)
    requires Scene(cfg, w, d, e)
    requires lab.log == [r, FailedRecord(1, e, w.minted(0))] && r.id == 0
    requires lab.service.cache == [entry] && entry.key == w.minted(0) && entry.at == w.clock(1)
    requires entry.response == Answer(cfg, "", [d], w.clock(1)) && 1 !in lab.ingested
    ensures var last := Step(cfg, w, lab, Ops(w, d, e)[2], 2);
      last.log[1].status == Posted && last.log[1].id == 1 && 1 !in last.ingested && last.service.chain == lab.service.chain
  {
    AnswerNames(cfg, d, w.clock(1));
    hide HandlerErrors, FieldFault, Answer, ChainAfter, Answers;
    var key := w.minted(0);
    var s := FailedRecord(1, e, key);
    GroupOfSecond(r, s, Some(key));
    assert EventsIn([s]) == [e];
    OneGate(e, key, w, 2);
    assert lab.service.cache[0].key == key;
    NobodyNames(entry.response.events, KeyOf(e));
    var outcome := Send(cfg, lab.service, [], [s], Some(key), w, 2).1;
    assert outcome.status == Posted;
    assert Patched([r, s], {1}, Some(key), outcome)[1] == Retried(s, outcome, None);
  }

  lemma StepKeepsSize(cfg: Config, w: World, lab: Lab, op: Op, i: nat)
    requires op.RetryOne?
    ensures |Step(cfg, w, lab, op, i).log| == |lab.log|
  {
    hide Deliver;
  }

  /** Where the second retry starts. */
  lemma AfterFirst(cfg: Config, w: World, d: Event, e: Event) returns (lab: Lab, r: Record, entry: Entry)
    requires Scene(cfg, w, d, e)
    ensures lab == Play(cfg, w, Ops(w, d, e)[..2])
    ensures lab.log == [r, FailedRecord(1, e, w.minted(0))] && r.id == 0
    ensures lab.service.cache == [entry] && entry.key == w.minted(0) && entry.at == w.clock(1)
    ensures entry.response == Answer(cfg, "", [d], w.clock(1)) && 1 !in lab.ingested
  {
    hide Step, Scene, Answer;
    var ops := Ops(w, d, e);
    ImportFails(cfg, w, d, e);
    lab, r, entry := FirstRetry(cfg, w, d, e);
    assert ops[..2][..1] == ops[..1] && ops[..1][..0] == [];
    assert Play(cfg, w, ops[..1]) == Step(cfg, w, Play(cfg, w, []), ops[0], 0);
    assert Play(cfg, w, ops[..2]) == Step(cfg, w, Play(cfg, w, ops[..1]), ops[1], 1);
  }

  /** After the three calls the second record reads posted and was never ingested. */
  lemma SplitGroupLies(cfg: Config, w: World, d: Event, e: Event)
    requires Scene(cfg, w, d, e)
    ensures var lab := Play(cfg, w, Ops(w, d, e));
      && |lab.log| == 2 && lab.log[1].id == 1 && lab.log[1].status == Posted && 1 !in lab.ingested
  {
    hide Step, Scene, Answer;
    var ops := Ops(w, d, e);
    var lab, r, entry := AfterFirst(cfg, w, d, e);
    SecondRetry(cfg, w, d, e, lab, r, entry);
    assert Play(cfg, w, ops) == Step(cfg, w, lab, ops[2], 2);
    StepKeepsSize(cfg, w, lab, ops[2], 2);
  }
}
