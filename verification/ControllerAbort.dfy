/**
 The epoch does not cover a reconfiguration that fails halfway: a scenario load whose
 replace_all raises has re-read the store, leaves the epoch alone, and so lets a step
 commit a batch it had snapshotted before.
 */
module ControllerAbort {
  import opened Common
  import opened Controller
  import opened ControllerSafety

  ghost predicate Reachable(s: State) {
    exists run :: Exec(INITIAL, run) == s
  }

  lemma Go(s: State, p: Pid, c: Choice)
    requires Reachable(s) && Enabled(s, p)
    ensures Reachable(Move(s, p, c))
  {
    var run :| Exec(INITIAL, run) == s;
    assert (run + [Run(p, c)])[..|run|] == run;
    assert Exec(INITIAL, run + [Run(p, c)]) == Next(s, Run(p, c));
  }

  lemma Ask(s: State, op: Op)
    requires Reachable(s) && !op.Loop?
    ensures Reachable(s.(procs := s.procs + [NewProc(op)]))
  {
    var run :| Exec(INITIAL, run) == s;
    assert (run + [Spawn(op)])[..|run|] == run;
    assert Exec(INITIAL, run + [Spawn(op)]) == Next(s, Spawn(op));
  }

  const QUIETLY: Choice := Choice(false, 1, 1, {}, [])
  const RAISING: Choice := Choice(true, 0, 0, {}, [])
  const NO_LOOP: Runner := Runner(None, None, {})

  /** A step with `pc`, beside a scenario load with `pc'` when there is one. */
  function StepAt(pc: Pc, sent: nat): Proc {
    Proc(Step, pc, 0, 0, 0, Ids(0, 1), 1, sent, 0, None)
  }

  function Both(pc: Pc, sent: nat, load: Pc, locks: Locks, incarnation: nat, aborts: nat): State {
    State([StepAt(pc, sent), NewProc(LoadSave).(pc := load)], locks, NO_LOOP,
          Store(0, incarnation, aborts, [], 1))
  }

  const FREE: Locks := Locks(None, None, None)

  function StepAlone(pc: Pc, locks: Locks): State {
    State([NewProc(Step).(pc := pc)], locks, NO_LOOP, Store(0, 0, 0, [], 0))
  }

  lemma NothingDoneYet()
    ensures Reachable(INITIAL)
  {
    assert Exec(INITIAL, []) == INITIAL;
  }

  lemma LeakHolding()
    ensures Reachable(StepAlone(Holding, Locks(None, None, Some(0))))
  {
    NothingDoneYet();
    hide Reachable;
    Ask(INITIAL, Step);
    assert INITIAL.(procs := INITIAL.procs + [NewProc(Step)]) == StepAlone(WantData, FREE);
    Go(StepAlone(WantData, FREE), 0, QUIETLY);
    assert Move(StepAlone(WantData, FREE), 0, QUIETLY) == StepAlone(Holding, Locks(None, None, Some(0)));
  }

  /** The step has taken its snapshot; the load waits for the reconfigure lock. */
  lemma LeakSnapshot()
    ensures Reachable(Both(Delivering(1), 0, WantReconf, FREE, 0, 0))
  {
    hide Reachable;
    LeakHolding();
    Go(StepAlone(Holding, Locks(None, None, Some(0))), 0, QUIETLY);
    var delivering := State([StepAt(Delivering(1), 0)], FREE, NO_LOOP, Store(0, 0, 0, [], 1));
    assert Move(StepAlone(Holding, Locks(None, None, Some(0))), 0, QUIETLY) == delivering;
    Ask(delivering, LoadSave);
    assert delivering.(procs := delivering.procs + [NewProc(LoadSave)]) == Both(Delivering(1), 0, WantReconf, FREE, 0, 0);
  }

  /** The load stops nothing, reads the save and waits for the data lock. */
  lemma LeakStopped()
    ensures Reachable(Both(Delivering(1), 0, WantData, Locks(Some(1), None, None), 0, 0))
  {
    LeakSnapshot();
    var s := Both(Delivering(1), 0, WantReconf, FREE, 0, 0);
    Go(s, 1, QUIETLY);
    var s1 := Both(Delivering(1), 0, StopSignal, Locks(Some(1), None, None), 0, 0);
    assert Move(s, 1, QUIETLY) == s1;
    Go(s1, 1, QUIETLY);
    var s2 := Both(Delivering(1), 0, ReadSave, Locks(Some(1), None, None), 0, 0);
    assert Move(s1, 1, QUIETLY) == s2;
    Go(s2, 1, QUIETLY);
  }

  /** The load re-reads the store, then fails to replace it. */
  lemma LeakAborted()
    ensures Reachable(Both(Delivering(1), 0, Done, FREE, 1, 1))
  {
    LeakStopped();
    var s := Both(Delivering(1), 0, WantData, Locks(Some(1), None, None), 0, 0);
    var held := Locks(Some(1), None, Some(1));
    Go(s, 1, QUIETLY);
    assert Move(s, 1, QUIETLY) == Both(Delivering(1), 0, Holding, held, 0, 0);
    Go(Both(Delivering(1), 0, Holding, held, 0, 0), 1, QUIETLY);
    assert Move(Both(Delivering(1), 0, Holding, held, 0, 0), 1, QUIETLY)
      == Both(Delivering(1), 0, Configuring, held, 0, 0);
    Go(Both(Delivering(1), 0, Configuring, held, 0, 0), 1, QUIETLY);
    assert Move(Both(Delivering(1), 0, Configuring, held, 0, 0), 1, QUIETLY)
      == Both(Delivering(1), 0, Repointing, held, 1, 0);
    Go(Both(Delivering(1), 0, Repointing, held, 1, 0), 1, RAISING);
  }

  /** The step delivers and enters its commit section with the epoch unchanged. */
  lemma LeakCommits()
    ensures Reachable(Both(Committing(true), 1, Done, Locks(None, None, Some(0)), 1, 1))
  {
    LeakAborted();
    Go(Both(Delivering(1), 0, Done, FREE, 1, 1), 0, QUIETLY);
    assert Move(Both(Delivering(1), 0, Done, FREE, 1, 1), 0, QUIETLY) == Both(Delivering(0), 1, Done, FREE, 1, 1);
    Go(Both(Delivering(0), 1, Done, FREE, 1, 1), 0, QUIETLY);
    assert Move(Both(Delivering(0), 1, Done, FREE, 1, 1), 0, QUIETLY) == Both(WantCommit, 1, Done, FREE, 1, 1);
    Go(Both(WantCommit, 1, Done, FREE, 1, 1), 0, QUIETLY);
  }

  /** The epoch check passes although the store was re-read after the step's snapshot. */
  lemma AbortedLoadLeaks()
    ensures exists run :: var s := After(run);
      |s.store.log| == 1 && s.store.log[0].writer.Some?
      && s.store.log[0].writer.value.incarnation != s.store.incarnation
  {
    LeakCommits();
    var s := Both(Committing(true), 1, Done, Locks(None, None, Some(0)), 1, 1);
    Go(s, 0, QUIETLY);
    var run :| Exec(INITIAL, run) == Move(s, 0, QUIETLY);
    assert After(run) == Move(s, 0, QUIETLY);
  }
}
