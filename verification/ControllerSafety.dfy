/**
 What every interleaving of the controller's operations keeps, and what follows from it.
 */
module ControllerSafety {
  import opened Common
  import opened Controller

  // ------------------------------------------------------------- the invariant

  predicate InCritical(pc: Pc) {
    pc.Holding? || pc.Configuring? || pc.Repointing?
  }

  predicate Stopping(pc: Pc) {
    pc.StopSignal? || pc.StopDrain? || pc.StopClear?
  }

  predicate AfterStopping(pc: Pc) {
    pc.ReadSave? || pc.WantData? || InCritical(pc)
  }

  predicate HoldsReconf(q: Proc) {
    || (q.op.Start? && (q.pc.WantLife? || InCritical(q.pc) || q.pc.WantData?))
    || (Reconfigures(q.op) && (Stopping(q.pc) || AfterStopping(q.pc)))
  }

  predicate HoldsLife(q: Proc) {
    q.op.Start? && (InCritical(q.pc) || q.pc.WantData?)
  }

  predicate HoldsData(q: Proc) {
    InCritical(q.pc) || q.pc.Committing?
  }

  predicate InFlight(pc: Pc) {
    pc.Delivering? || pc.WantCommit? || pc.Committing?
  }

  predicate Shape(q: Proc) {
    match q.op
    case Start => q.pc.WantReconf? || q.pc.WantLife? || q.pc.WantData? || InCritical(q.pc) || q.pc.Done?
    case Stop => Stopping(q.pc) || q.pc.Done?
    case Reset => q.pc.WantReconf? || Stopping(q.pc) || q.pc.WantData? || InCritical(q.pc) || q.pc.Done?
    case LoadFixture(_) =>
      q.pc.WantReconf? || Stopping(q.pc) || q.pc.WantData? || InCritical(q.pc) || InFlight(q.pc) || q.pc.Done?
    case LoadSave => q.pc.WantReconf? || Stopping(q.pc) || AfterStopping(q.pc) || q.pc.Done?
    case Replay => q.pc.WantData? || q.pc.Holding? || q.pc.Delivering? || q.pc.Done?
    case SaveScenario => q.pc.WantData? || q.pc.Holding? || q.pc.Done?
    case Integrate => q.pc.WantData? || q.pc.Holding? || q.pc.Done?
    case Loop =>
      q.pc.LoopCheck? || q.pc.LoopSleep? || q.pc.WantData? || q.pc.Holding? || InFlight(q.pc) || q.pc.Done?
    case _ => q.pc.WantData? || q.pc.Holding? || InFlight(q.pc) || q.pc.Done?
  }

  ghost predicate Shapes(s: State) {
    forall p :: 0 <= p < |s.procs| ==> Shape(s.procs[p])
  }

  /** Each lock's owner is exactly the coroutine inside the corresponding section. */
  ghost predicate LocksOk(s: State) {
    && (s.locks.reconf.Some? ==> s.locks.reconf.value < |s.procs|)
    && (s.locks.life.Some? ==> s.locks.life.value < |s.procs|)
    && (s.locks.data.Some? ==> s.locks.data.value < |s.procs|)
    && forall p :: 0 <= p < |s.procs| ==>
         && (HoldsReconf(s.procs[p]) <==> s.locks.reconf == Some(p))
         && (HoldsLife(s.procs[p]) <==> s.locks.life == Some(p))
         && (HoldsData(s.procs[p]) <==> s.locks.data == Some(p))
  }

  ghost predicate TaskOk(s: State) {
    && (s.run.task.Some? ==>
          && s.run.task.value < |s.procs|
          && s.procs[s.run.task.value].op.Loop?
          && s.run.event == s.run.task)
    && forall g: Pid :: Live(s, g) ==> s.run.task == Some(g)
  }

  predicate DrainOk(s: State, q: Proc) {
    && (q.pc.StopDrain? ==>
          && q.pc.loop < |s.procs| && s.procs[q.pc.loop].op.Loop? && q.pc.loop in s.run.stopping
          && (Reconfigures(q.op) ==> s.run.task == Some(q.pc.loop) || s.run.task.None?))
    && (q.pc.StopClear? ==>
          && q.pc.loop < |s.procs| && s.procs[q.pc.loop].op.Loop? && s.procs[q.pc.loop].pc.Done?
          && (Reconfigures(q.op) ==> s.run.task == Some(q.pc.loop) || s.run.task.None?))
  }

  ghost predicate Drains(s: State) {
    forall p :: 0 <= p < |s.procs| ==> DrainOk(s, s.procs[p])
  }

  /** No run loop is live once a reconfiguration has stopped the one there was. */
  ghost predicate Quiet(s: State) {
    forall p :: 0 <= p < |s.procs| && Reconfigures(s.procs[p].op) && AfterStopping(s.procs[p].pc) ==>
      !Running(s)
  }

  predicate MidRepoint(s: State) {
    s.locks.data.Some? && s.locks.data.value < |s.procs| && s.procs[s.locks.data.value].pc.Repointing?
  }

  predicate SnapOk(s: State, q: Proc) {
    InFlight(q.pc) ==>
      && q.epoch <= s.store.epoch && q.aborts <= s.store.aborts && q.incarnation <= s.store.incarnation
      && (if MidRepoint(s) then q.incarnation < s.store.incarnation
          else (q.incarnation == s.store.incarnation <==> q.epoch == s.store.epoch && q.aborts == s.store.aborts))
      && (q.epoch == s.store.epoch ==> q.sent + (if q.pc.Delivering? then q.pc.left else 0) == q.total)
      && (q.pc.Committing? ==> (q.pc.ok <==> q.epoch == s.store.epoch))
  }

  ghost predicate Snaps(s: State) {
    forall p :: 0 <= p < |s.procs| ==> SnapOk(s, s.procs[p])
  }

  predicate StampOk(s: State, w: Stamp) {
    && (w.incarnation == s.store.incarnation <==> !w.crossedAbort)
    && (w.crossedAbort ==> 0 < s.store.aborts)
  }

  /** A record some operation committed belongs to the present incarnation exactly when no
      reconfiguration was aborted between that operation's snapshot and its commit. */
  ghost predicate LogOk(s: State) {
    forall i :: 0 <= i < |s.store.log| && s.store.log[i].writer.Some? ==>
      StampOk(s, s.store.log[i].writer.value)
  }

  ghost predicate Reports(s: State) {
    forall p :: 0 <= p < |s.procs| && s.procs[p].report.Some? ==>
      s.procs[p].report.value == s.procs[p].added
  }

  ghost predicate Inv(s: State) {
    Shapes(s) && LocksOk(s) && TaskOk(s) && Drains(s) && Quiet(s) && Snaps(s) && LogOk(s) && Reports(s)
  }

  // ------------------------------------------------- what one move can change

  /** A move rewrites its own coroutine and may append one fresh run loop. */
  ghost predicate Local(s: State, t: State, p: Pid)
    requires p < |s.procs|
  {
    && |s.procs| <= |t.procs|
    && t.procs[p].op == s.procs[p].op
    && (forall q :: 0 <= q < |s.procs| && q != p ==> t.procs[q] == s.procs[q])
    && (forall q :: |s.procs| <= q < |t.procs| ==> t.procs[q] == NewProc(Loop))
  }

  function Own(holds: bool, owner: Option<Pid>, p: Pid): Option<Pid> {
    if holds then Some(p) else if owner == Some(p) then None else owner
  }

  predicate TakesFree(holds: bool, owner: Option<Pid>, p: Pid) {
    holds ==> owner.None? || owner == Some(p)
  }

  predicate LockMove(s: State, t: State, p: Pid)
    requires p < |t.procs|
  {
    var q := t.procs[p];
    && Shape(q)
    && t.locks.reconf == Own(HoldsReconf(q), s.locks.reconf, p) && TakesFree(HoldsReconf(q), s.locks.reconf, p)
    && t.locks.life == Own(HoldsLife(q), s.locks.life, p) && TakesFree(HoldsLife(q), s.locks.life, p)
    && t.locks.data == Own(HoldsData(q), s.locks.data, p) && TakesFree(HoldsData(q), s.locks.data, p)
  }

  /** `_task` and `_stop_event` stay, or a finished loop is cleared, or a start() that holds
      the reconfigure lock installs a loop when none is running. */
  predicate TaskMove(s: State, t: State, p: Pid)
    requires p < |s.procs| && p < |t.procs|
  {
    && s.run.stopping <= t.run.stopping
    && (|| (t.run.task == s.run.task && t.run.event == s.run.event && |t.procs| == |s.procs|)
        || (s.run.task.Some? && LoopDone(s, s.run.task.value) && t.run.task.None? && |t.procs| == |s.procs|)
        || (&& !Running(s) && |t.procs| == |s.procs| + 1
            && t.run.task == Some(|s.procs|) && t.run.event == t.run.task
            && HoldsReconf(s.procs[p])))
    && DrainOk(t, t.procs[p])
    && (Reconfigures(t.procs[p].op) && AfterStopping(t.procs[p].pc) ==> !Running(t))
  }

  /** The epoch, the incarnation and the abort count move only under the data lock, and an
      epoch or an abort is added exactly when a repoint ends or a configure fails. */
  predicate EpochMove(s: State, t: State, p: Pid)
    requires p < |t.procs|
  {
    && SnapOk(t, t.procs[p])
    && (|| (t.store.epoch == s.store.epoch && t.store.incarnation == s.store.incarnation && t.store.aborts == s.store.aborts
            && MidRepoint(t) == MidRepoint(s))
        || (&& s.locks.data == Some(p)
            && s.store.incarnation <= t.store.incarnation && s.store.epoch <= t.store.epoch && s.store.aborts <= t.store.aborts
            && (MidRepoint(s) || s.store.incarnation < t.store.incarnation)
            && (MidRepoint(t) || s.store.epoch < t.store.epoch || s.store.aborts < t.store.aborts)))
  }

  predicate ReportMove(t: State, p: Pid)
    requires p < |t.procs|
  {
    t.procs[p].report.Some? ==> t.procs[p].report.value == t.procs[p].added
  }

  ghost predicate Effect(s: State, t: State, p: Pid)
    requires p < |s.procs|
  {
    Local(s, t, p) && LockMove(s, t, p) && TaskMove(s, t, p) && EpochMove(s, t, p) && ReportMove(t, p)
  }

  // ---------------------------------------------- each section has that effect

  /** What the invariant says about the coroutine that moves. */
  predicate Here(s: State, p: Pid) {
    && Enabled(s, p)
    && var q := s.procs[p];
    && Shape(q) && SnapOk(s, q) && DrainOk(s, q) && ReportMove(s, p)
    && (HoldsReconf(q) <==> s.locks.reconf == Some(p))
    && (HoldsLife(q) <==> s.locks.life == Some(p))
    && (HoldsData(q) <==> s.locks.data == Some(p))
    && (s.locks.data.Some? ==> s.locks.data.value < |s.procs|)
    && (s.run.task.Some? ==> s.run.task.value < |s.procs| && s.run.event == s.run.task && s.procs[s.run.task.value].op.Loop?)
    && (Live(s, p) ==> s.run.task == Some(p))
    && (Reconfigures(q.op) && AfterStopping(q.pc) ==> !Running(s))
  }

  predicate Waits(pc: Pc) {
    pc.WantReconf? || pc.WantLife? || pc.WantData? || pc.WantCommit?
  }

  predicate Wakes(pc: Pc) {
    pc.StopDrain? || pc.ReadSave? || pc.LoopCheck? || pc.LoopSleep?
  }

  lemma ReconfTaken(s: State, p: Pid)
    requires Here(s, p) && s.procs[p].pc.WantReconf?
    ensures Effect(s, Take(s, p), p)
  {}

  lemma LifeTaken(s: State, p: Pid)
    requires Here(s, p) && s.procs[p].pc.WantLife?
    ensures Effect(s, Take(s, p), p)
  {}

  lemma DataTaken(s: State, p: Pid)
    requires Here(s, p) && s.procs[p].pc.WantData?
    ensures Effect(s, Take(s, p), p)
  {}

  lemma DataTakenAgain(s: State, p: Pid)
    requires Here(s, p) && s.procs[p].pc.WantCommit?
    ensures Effect(s, Take(s, p), p)
  {}

  lemma TakeEffect(s: State, p: Pid)
    requires Here(s, p) && Waits(s.procs[p].pc)
    ensures Effect(s, Take(s, p), p)
  {
    var pc := s.procs[p].pc;
    hide Effect, Here, Take;
    if pc.WantReconf? {
      ReconfTaken(s, p);
    } else if pc.WantLife? {
      LifeTaken(s, p);
    } else if pc.WantData? {
      DataTaken(s, p);
    } else {
      DataTakenAgain(s, p);
    }
  }

  /** Leaving before the store was touched. */
  lemma FinishEffect(s: State, p: Pid)
    requires Here(s, p) && (s.procs[p].pc.ReadSave? || s.procs[p].pc.Holding?)
    ensures Effect(s, Finish(s, p), p)
  {}

  lemma DrainEnds(s: State, p: Pid, c: Choice)
    requires Here(s, p) && s.procs[p].pc.StopDrain?
    ensures Effect(s, Wake(s, p, c), p)
  {}

  lemma SaveIsRead(s: State, p: Pid)
    requires Here(s, p) && s.procs[p].pc.ReadSave?
    ensures Effect(s, At(s, p, WantData), p)
  {}

  lemma LoopWakes(s: State, p: Pid, c: Choice)
    requires Here(s, p) && (s.procs[p].pc.LoopCheck? || s.procs[p].pc.LoopSleep?)
    ensures Effect(s, Wake(s, p, c), p)
  {}

  lemma WakeEffect(s: State, p: Pid, c: Choice)
    requires Here(s, p) && Wakes(s.procs[p].pc)
    ensures Effect(s, Wake(s, p, c), p)
  {
    var pc := s.procs[p].pc;
    hide Effect, Here, At, Finish;
    if pc.StopDrain? {
      DrainEnds(s, p, c);
    } else if pc.ReadSave? {
      FinishEffect(s, p);
      SaveIsRead(s, p);
    } else {
      LoopWakes(s, p, c);
    }
  }

  lemma NothingToStop(s: State, p: Pid)
    requires Here(s, p) && s.procs[p].pc.StopSignal? && s.run.task.None?
    ensures Effect(s, InStopSignal(s, p), p)
  {}

  lemma LoopIsSignalled(s: State, p: Pid)
    requires Here(s, p) && s.procs[p].pc.StopSignal? && s.run.task.Some?
    ensures Effect(s, InStopSignal(s, p), p)
  {
    hide AfterStop;
  }

  lemma StopSignalEffect(s: State, p: Pid)
    requires Here(s, p) && s.procs[p].pc.StopSignal?
    ensures Effect(s, InStopSignal(s, p), p)
  {
    var task := s.run.task;
    hide Effect, Here, InStopSignal;
    if task.None? {
      NothingToStop(s, p);
    } else {
      LoopIsSignalled(s, p);
    }
  }

  lemma StopClearEffect(s: State, p: Pid)
    requires Here(s, p) && s.procs[p].pc.StopClear?
    ensures Effect(s, InStopClear(s, p), p)
  {}

  lemma ConfigureBegins(s: State, p: Pid)
    requires Here(s, p) && s.procs[p].pc.Holding? && (s.procs[p].op.Start? || Reconfigures(s.procs[p].op))
    ensures Effect(s, At(s, p, Configuring), p)
  {}

  lemma DeliveryBegins(s: State, p: Pid, c: Choice)
    requires Here(s, p) && s.procs[p].pc.Holding?
    requires var op := s.procs[p].op;
      !op.SaveScenario? && !op.Integrate? && !op.Start? && !Reconfigures(op)
    ensures Effect(s, Snapshot(s, p, s.store, c), p)
  {
    hide Batch;
  }

  lemma FirstSectionEffect(s: State, p: Pid, c: Choice)
    requires Here(s, p) && s.procs[p].pc.Holding?
    ensures Effect(s, InFirstSection(s, p, c), p)
  {
    var op := s.procs[p].op;
    hide Effect, Here, At, Finish, Snapshot, SelectIds;
    FinishEffect(s, p);
    if op.Start? || Reconfigures(op) {
      ConfigureBegins(s, p);
    } else if !op.SaveScenario? && !op.Integrate? {
      DeliveryBegins(s, p, c);
    }
  }

  lemma ConfigureFails(s: State, p: Pid, c: Choice)
    requires Here(s, p) && s.procs[p].pc.Configuring?
    ensures Effect(s, Abort(s, p, Touch(s.store, c.disk)), p)
  {}

  lemma ConfigureSucceeds(s: State, p: Pid, c: Choice)
    requires Here(s, p) && s.procs[p].pc.Configuring?
    ensures Effect(s, At(s, p, Repointing).(store := Touch(s.store, c.disk)), p)
  {}

  lemma ConfiguringEffect(s: State, p: Pid, c: Choice)
    requires Here(s, p) && s.procs[p].pc.Configuring?
    ensures Effect(s, InConfiguring(s, p, c), p)
  {
    hide Effect, Here, Abort, Touch;
    ConfigureFails(s, p, c);
    ConfigureSucceeds(s, p, c);
  }

  lemma InstallEffect(s: State, p: Pid)
    requires Here(s, p) && s.procs[p].pc.Repointing? && s.procs[p].op.Start?
    ensures Effect(s, Install(s, p), p)
  {}

  lemma ClearedEffect(s: State, p: Pid, c: Choice)
    requires Here(s, p) && s.procs[p].pc.Repointing? && s.procs[p].op.Reset?
    ensures Effect(s, Cleared(s, p, c), p)
  {}

  lemma ReplacedEffect(s: State, p: Pid, c: Choice)
    requires Here(s, p) && s.procs[p].pc.Repointing? && s.procs[p].op.LoadSave?
    ensures Effect(s, Replaced(s, p, c), p)
  {}

  lemma FixtureEffect(s: State, p: Pid, c: Choice)
    requires Here(s, p) && s.procs[p].pc.Repointing? && s.procs[p].op.LoadFixture?
    ensures Effect(s, FixtureReady(s, p, s.procs[p].op.clears, c), p)
  {}

  lemma DeliveryEnds(s: State, p: Pid)
    requires Here(s, p) && s.procs[p].pc.Delivering?
    requires s.procs[p].pc.left == 0 || s.procs[p].epoch != s.store.epoch
    ensures Effect(s, At(s, p, if s.procs[p].op.Replay? then Done else WantCommit), p)
  {}

  lemma RequestIsSent(s: State, p: Pid)
    requires Here(s, p) && s.procs[p].pc.Delivering? && s.procs[p].pc.left > 0
    ensures var q := s.procs[p];
      Effect(s, s.(procs := s.procs[p := q.(pc := Delivering(q.pc.left - 1), sent := q.sent + 1)]), p)
  {}

  lemma DeliveringEffect(s: State, p: Pid)
    requires Here(s, p) && s.procs[p].pc.Delivering?
    ensures Effect(s, InDelivering(s, p), p)
  {
    var q := s.procs[p];
    hide Effect, Here, At;
    if q.pc.left > 0 {
      RequestIsSent(s, p);
    }
    if q.pc.left == 0 || q.epoch != s.store.epoch {
      DeliveryEnds(s, p);
    }
  }

  lemma CommitAdds(s: State, p: Pid, c: Choice)
    requires p < |s.procs| && s.procs[p].pc.Committing? && !(s.procs[p].pc.ok && c.fail)
    ensures var q := s.procs[p];
      |CommittedLog(s, p, c)| == |s.store.log| + if q.pc.ok && !q.op.Retry? then |q.batch| else 0
  {}

  lemma CommittingEffect(s: State, p: Pid, c: Choice)
    requires Here(s, p) && s.procs[p].pc.Committing?
    ensures Effect(s, InCommitting(s, p, c), p)
  {
    hide CommittedLog, StampOf;
    if !(s.procs[p].pc.ok && c.fail) {
      CommitAdds(s, p, c);
    }
  }

  // ------------------------------------------- and such an effect keeps the invariant

  lemma InvHere(s: State, p: Pid)
    requires Inv(s) && Enabled(s, p)
    ensures Here(s, p)
  {}

  lemma NewLoopHoldsNothing()
    ensures var q := NewProc(Loop); !HoldsReconf(q) && !HoldsLife(q) && !HoldsData(q)
  {}

  lemma EffectKeepsLocks(s: State, t: State, p: Pid)
    requires p < |s.procs| && LocksOk(s)
    requires Local(s, t, p) && LockMove(s, t, p)
    ensures LocksOk(t)
  {
    hide HoldsReconf, HoldsLife, HoldsData, Shape;
    NewLoopHoldsNothing();
  }

  lemma EffectKeepsShapes(s: State, t: State, p: Pid)
    requires p < |s.procs| && Shapes(s)
    requires Local(s, t, p) && LockMove(s, t, p)
    ensures Shapes(t)
  {}

  lemma EffectKeepsTask(s: State, t: State, p: Pid)
    requires Enabled(s, p) && LocksOk(s) && TaskOk(s)
    requires Local(s, t, p) && TaskMove(s, t, p)
    ensures TaskOk(t)
  {}

  lemma EffectKeepsDrains(s: State, t: State, p: Pid)
    requires Enabled(s, p) && LocksOk(s) && TaskOk(s) && Drains(s)
    requires Local(s, t, p) && TaskMove(s, t, p)
    ensures Drains(t)
  {}

  lemma EffectKeepsQuiet(s: State, t: State, p: Pid)
    requires Enabled(s, p) && LocksOk(s) && TaskOk(s) && Quiet(s)
    requires Local(s, t, p) && TaskMove(s, t, p)
    ensures Quiet(t)
  {}

  lemma EffectKeepsSnaps(s: State, t: State, p: Pid)
    requires Enabled(s, p) && LocksOk(s) && Snaps(s) && Reports(s)
    requires Local(s, t, p) && EpochMove(s, t, p) && ReportMove(t, p)
    ensures Snaps(t) && Reports(t)
  {}

  /** A commit stamps its records with the incarnation its snapshot saw. */
  lemma CommitKeepsLog(s: State, p: Pid, c: Choice)
    requires Here(s, p) && s.procs[p].pc.Committing? && LogOk(s)
    ensures LogOk(InCommitting(s, p, c))
  {
    var t := InCommitting(s, p, c);
    assert !MidRepoint(s);
    if s.procs[p].pc.ok {
      assert StampOk(s, StampOf(s, p));
    }
    forall i | 0 <= i < |t.store.log| && t.store.log[i].writer.Some?
      ensures StampOk(t, t.store.log[i].writer.value)
    {
      if i < |s.store.log| && t.store.log[i] == s.store.log[i] {
        assert StampOk(s, s.store.log[i].writer.value);
      } else {
        assert t.store.log[i].writer == Some(StampOf(s, p));
      }
    }
  }

  /** What a move other than a commit does to the log: nothing, or it is read from disk. */
  predicate LogMove(s: State, t: State) {
    || (t.store.log == s.store.log && t.store.incarnation == s.store.incarnation && s.store.aborts <= t.store.aborts)
    || (forall i :: 0 <= i < |t.store.log| ==> t.store.log[i].writer.None?)
  }

  lemma RepointingMovesLog(s: State, p: Pid, c: Choice)
    requires Here(s, p) && s.procs[p].pc.Repointing?
    ensures LogMove(s, InRepointing(s, p, c))
  {
    hide Batch;
  }

  lemma OthersKeepLog(s: State, p: Pid, c: Choice)
    requires Enabled(s, p) && !s.procs[p].pc.Committing? && !s.procs[p].pc.Repointing? && !s.procs[p].pc.Configuring?
    ensures Move(s, p, c).store.(nextId := 0) == s.store.(nextId := 0)
  {
    hide Batch, SelectIds, Release;
  }

  lemma MoveKeepsLog(s: State, p: Pid, c: Choice)
    requires Here(s, p) && LogOk(s)
    ensures LogOk(Move(s, p, c))
  {
    var t := Move(s, p, c);
    var pc := s.procs[p].pc;
    hide Here, InRepointing, InFirstSection, InDelivering, InCommitting;
    if pc.Committing? {
      CommitKeepsLog(s, p, c);
    } else {
      if pc.Repointing? {
        RepointingMovesLog(s, p, c);
      } else if !pc.Configuring? {
        OthersKeepLog(s, p, c);
      }
      forall i | 0 <= i < |t.store.log| && t.store.log[i].writer.Some?
        ensures StampOk(t, t.store.log[i].writer.value)
      {
        assert StampOk(s, s.store.log[i].writer.value);
      }
    }
  }

  lemma MoveEffect(s: State, p: Pid, c: Choice)
    requires Here(s, p)
    ensures Effect(s, Move(s, p, c), p)
  {
    match s.procs[p].pc
    case StopSignal => StopSignalEffect(s, p);
    case StopClear(_) => StopClearEffect(s, p);
    case Holding => FirstSectionEffect(s, p, c);
    case Configuring => ConfiguringEffect(s, p, c);
    case Repointing =>
      match s.procs[p].op {
        case Start => InstallEffect(s, p);
        case Reset => ClearedEffect(s, p, c);
        case LoadFixture(_) => FixtureEffect(s, p, c);
        case LoadSave => ReplacedEffect(s, p, c);
        case _ => assert false;
      }
    case Delivering(_) => DeliveringEffect(s, p);
    case Committing(_) => CommittingEffect(s, p, c);
    case WantReconf => TakeEffect(s, p);
    case WantLife => TakeEffect(s, p);
    case WantData => TakeEffect(s, p);
    case WantCommit => TakeEffect(s, p);
    case _ => WakeEffect(s, p, c);
  }

  lemma EffectKeepsInv(s: State, t: State, p: Pid)
    requires Inv(s) && Enabled(s, p) && Effect(s, t, p) && LogOk(t)
    ensures Inv(t)
  {
    EffectKeepsLocks(s, t, p);
    EffectKeepsShapes(s, t, p);
    EffectKeepsTask(s, t, p);
    EffectKeepsDrains(s, t, p);
    EffectKeepsQuiet(s, t, p);
    EffectKeepsSnaps(s, t, p);
  }

  /** A coroutine that has not run yet holds nothing and waits for nobody. */
  predicate Newborn(q: Proc) {
    && Shape(q) && !q.op.Loop? && q.report.None?
    && !HoldsReconf(q) && !HoldsLife(q) && !HoldsData(q)
    && !q.pc.StopDrain? && !q.pc.StopClear? && !InFlight(q.pc)
    && (Reconfigures(q.op) ==> !AfterStopping(q.pc))
  }

  lemma JoinKeepsInv(s: State, t: State, q: Proc)
    requires Inv(s) && Newborn(q) && t == s.(procs := s.procs + [q])
    ensures Inv(t)
  {
    assert MidRepoint(t) == MidRepoint(s);
    assert Running(t) == Running(s);
    assert LocksOk(t);
    assert TaskOk(t) && Drains(t);
    assert Snaps(t);
  }

  lemma NextKeepsInv(s: State, a: Action)
    requires Inv(s)
    ensures Inv(Next(s, a))
  {
    match a
    case Spawn(op) =>
      if !op.Loop? {
        assert Newborn(NewProc(op));
        JoinKeepsInv(s, Next(s, a), NewProc(op));
      }
    case Run(p, c) =>
      if Enabled(s, p) {
        InvHere(s, p);
        MoveEffect(s, p, c);
        MoveKeepsLog(s, p, c);
        EffectKeepsInv(s, Move(s, p, c), p);
      }
  }

  lemma {:induction false} RunKeepsInv(run: seq<Action>)
    ensures Inv(Exec(INITIAL, run))
    decreases |run|
  {
    if run == [] {
    } else {
      RunKeepsInv(run[..|run| - 1]);
      NextKeepsInv(Exec(INITIAL, run[..|run| - 1]), run[|run| - 1]);
    }
  }

  // ---------------------------------------------------- what every run guarantees

  function After(run: seq<Action>): State {
    Exec(INITIAL, run)
  }

  /** At most one run loop is live, and `_task` names it. */
  lemma OneLoop(run: seq<Action>, g: Pid, h: Pid)
    requires Live(After(run), g) && Live(After(run), h)
    ensures g == h && After(run).run.task == Some(g) && Running(After(run))
  {
    RunKeepsInv(run);
  }

  /** No run loop is live from the moment reset() or a load has stopped the one there was
      until its repoint is over, failed or not. */
  lemma NoLoopWhileRepointing(run: seq<Action>, p: Pid, g: Pid)
    requires p < |After(run).procs|
    requires Reconfigures(After(run).procs[p].op) && AfterStopping(After(run).procs[p].pc)
    ensures !Live(After(run), g)
  {
    RunKeepsInv(run);
    var s := After(run);
    assert !Running(s);
  }

  /** A batch from an earlier incarnation is in the log if and only if a reconfiguration
      failed, after touching the store, between its snapshot and its commit. */
  lemma StaleIffAborted(run: seq<Action>, i: nat)
    requires i < |After(run).store.log| && After(run).store.log[i].writer.Some?
    ensures var s := After(run); var w := s.store.log[i].writer.value;
      w.incarnation != s.store.incarnation <==> w.crossedAbort
  {
    RunKeepsInv(run);
    var s := After(run);
    assert StampOk(s, s.store.log[i].writer.value);
  }

  /** So a run in which every reconfiguration succeeds never shows a stale batch. */
  lemma NeverStaleWithoutAborts(run: seq<Action>)
    requires After(run).store.aborts == 0
    ensures var s := After(run); forall i :: 0 <= i < |s.store.log| && s.store.log[i].writer.Some? ==>
      s.store.log[i].writer.value.incarnation == s.store.incarnation
  {
    RunKeepsInv(run);
    var s := After(run);
    forall i | 0 <= i < |s.store.log| && s.store.log[i].writer.Some?
      ensures s.store.log[i].writer.value.incarnation == s.store.incarnation
    {
      assert StampOk(s, s.store.log[i].writer.value);
    }
  }

  /** The commit section is entered with `committed` true exactly when the epoch is the
      snapshot's, and then every request of the batch was sent. */
  lemma CommittedMeansDelivered(run: seq<Action>, p: Pid)
    requires p < |After(run).procs| && After(run).procs[p].pc.Committing?
    ensures var s := After(run); var q := s.procs[p];
      && (q.pc.ok <==> q.epoch == s.store.epoch)
      && (q.pc.ok ==> q.sent == q.total)
      && (q.pc.ok && q.aborts == s.store.aborts ==> q.incarnation == s.store.incarnation)
  {
    RunKeepsInv(run);
    var s := After(run);
    assert SnapOk(s, s.procs[p]);
  }

  /** What the commit section does to the log, and what the operation then reports. */
  lemma CommitReportsWhatItAdded(run: seq<Action>, p: Pid, c: Choice)
    requires p < |After(run).procs| && After(run).procs[p].pc.Committing?
    ensures var s := After(run); var q := s.procs[p]; var t := Move(s, p, c);
      var before := s.store.log; var after := t.store.log; var report := t.procs[p].report;
      && |before| <= |after|
      && (report.Some? ==> report.value == |after| - |before|)
      && (report.None? <==> q.pc.ok && c.fail)
      && (q.epoch != s.store.epoch ==> after == before)
      && (q.op.Retry? ==> |after| == |before| && forall i :: 0 <= i < |before| ==>
            after[i].id == before[i].id && (before[i].id !in q.batch ==> after[i] == before[i]))
      && (!q.op.Retry? ==> before <= after && |after| - |before| <= |q.batch| && forall i :: |before| <= i < |after| ==>
            after[i].id == q.batch[i - |before|] && after[i].writer == Some(StampOf(s, p)))
      && (!q.op.Retry? && q.pc.ok && !c.fail ==> |after| == |before| + |q.batch|)
  {
    RunKeepsInv(run);
    var s := After(run);
    assert SnapOk(s, s.procs[p]);
  }
}
