/**
 What each section of the controller does to the log, the epoch and the requests, stated on
 the state it leaves in any run.
 */
module ControllerEffects {
  import opened Common
  import opened Controller
  import opened ControllerSafety

  /** The log holds exactly these ids, in that order, all read from disk. */
  predicate ReadFrom(log: seq<Item>, ids: seq<nat>) {
    |log| == |ids| && forall i :: 0 <= i < |log| ==> log[i].id == ids[i] && log[i].writer.None?
  }

  /** A reset, or a fixture load that was asked to clear. */
  predicate Clears(op: Op) {
    op.Reset? || (op.LoadFixture? && op.clears)
  }

  /** The step of a repoint that can raise. */
  predicate CanRaise(op: Op) {
    Clears(op) || op.LoadSave?
  }

  lemma RepointedBy(run: seq<Action>, p: Pid)
    requires p < |After(run).procs| && After(run).procs[p].pc.Repointing?
    ensures var op := After(run).procs[p].op; op.Start? || op.Reset? || op.LoadFixture? || op.LoadSave?
    ensures Enabled(After(run), p)
  {
    RunKeepsInv(run);
    assert Shape(After(run).procs[p]);
  }

  /** Over any run: a reset or a clearing load that succeeds leaves an empty log, a scenario
      load exactly the records of its save, a start and a load that does not clear the log as
      it was. Each then counts one more epoch; one that raises counts none. */
  lemma RepointLeaves(run: seq<Action>, p: Pid, c: Choice)
    requires p < |After(run).procs| && After(run).procs[p].pc.Repointing?
    ensures Enabled(After(run), p)
    ensures var s := After(run); var op := s.procs[p].op; var raised := c.fail && CanRaise(op);
      var before, after := s.store, Move(s, p, c).store;
      && (Clears(op) && !raised ==> after.log == [])
      && (op.LoadSave? && !raised ==> ReadFrom(after.log, c.disk))
      && (!CanRaise(op) ==> after.log == before.log)
      && (Clears(op) && raised ==> ReadFrom(after.log, c.disk))
      && (op.LoadSave? && raised ==> after.log == before.log)
      && after.epoch == before.epoch + (if raised then 0 else 1)
      && after.aborts == before.aborts + (if raised then 1 else 0)
  {
    RepointedBy(run, p);
    hide Batch, Release, Without;
  }

  /** A start leaves a live run loop, the one there was or a new one. */
  lemma StartLeavesALoop(run: seq<Action>, p: Pid, c: Choice)
    requires p < |After(run).procs| && After(run).procs[p].pc.Repointing? && After(run).procs[p].op.Start?
    ensures var s := After(run); var t := Move(s, p, c);
      && t.run.task.Some? && Live(t, t.run.task.value)
      && (Running(s) ==> t.run == s.run && |t.procs| == |s.procs|)
      && (!Running(s) ==> t.run.task == Some(|s.procs|) && t.run.event == t.run.task && |t.procs| == |s.procs| + 1)
      && t.procs[p].pc.Done?
  {
    RunKeepsInv(run);
    assert Here(After(run), p);
  }

  /** Re-reading the store: the log is what the disk says, the epoch stays, and one that
      raises is over. */
  lemma ConfigureLeaves(run: seq<Action>, p: Pid, c: Choice)
    requires p < |After(run).procs| && After(run).procs[p].pc.Configuring?
    ensures var s := After(run); var t := Move(s, p, c);
      && ReadFrom(t.store.log, c.disk) && t.store.epoch == s.store.epoch
      && t.store.incarnation == s.store.incarnation + 1
      && t.store.aborts == s.store.aborts + (if c.fail then 1 else 0)
      && t.procs[p].pc == (if c.fail then Done else Repointing)
  {}

  /** No other section but a commit touches the log, the epoch or the failures counted. */
  lemma OthersLeaveTheLog(run: seq<Action>, p: Pid, c: Choice)
    requires Enabled(After(run), p)
    requires var pc := After(run).procs[p].pc; !pc.Committing? && !pc.Configuring? && !pc.Repointing?
    ensures var before, after := After(run).store, Move(After(run), p, c).store;
      after.log == before.log && after.epoch == before.epoch && after.aborts == before.aborts
  {
    OthersKeepLog(After(run), p, c);
  }

  /** A retry that commits stamps every record of its batch and no other; whatever commits
      leaves the epoch alone. */
  lemma CommitLeaves(run: seq<Action>, p: Pid, c: Choice)
    requires p < |After(run).procs| && After(run).procs[p].pc.Committing?
    ensures var s := After(run); var q := s.procs[p]; var t := Move(s, p, c);
      var before := s.store.log; var after := t.store.log;
      && t.store.epoch == s.store.epoch && t.store.aborts == s.store.aborts
      && (q.op.Retry? ==> |after| == |before| && forall i :: 0 <= i < |before| ==>
            after[i].id == before[i].id
            && (before[i].id in q.batch && q.pc.ok && !c.fail ==> after[i].writer == Some(StampOf(s, p)))
            && (before[i].id !in q.batch || !q.pc.ok || c.fail ==> after[i] == before[i]))
      // A write error leaves as many records of an append as were written before it.
      && (!q.op.Retry? && q.pc.ok && c.fail ==> |after| == |before| + if c.count <= |q.batch| then c.count else 0)
      && StampOf(s, p).pid == p && StampOf(s, p).incarnation == q.incarnation
      && (t.procs[p].pc == if q.op.Loop? && !(q.pc.ok && c.fail) then LoopSleep else Done)
  {
    hide Release;
    RunKeepsInv(run);
    assert Shape(After(run).procs[p]);
  }

  // ------------------------------------------------------------------ stopping

  /** stop() signals the loop that `_task` names and waits for it, or has nothing to wait for. */
  lemma StopSignals(run: seq<Action>, p: Pid, c: Choice)
    requires Enabled(After(run), p) && After(run).procs[p].pc.StopSignal?
    ensures var s := After(run); var t := Move(s, p, c); var task := s.run.task;
      if task.Some? then t.procs[p].pc == StopDrain(task.value) && task.value in t.run.stopping && t.run.task == task
      else t.run == s.run && !t.procs[p].pc.StopDrain? && !t.procs[p].pc.StopClear?
  {
    RunKeepsInv(run);
  }

  /** Once that loop is over `_task` is cleared, unless it names another loop by then. */
  lemma StopClears(run: seq<Action>, p: Pid, c: Choice)
    requires Enabled(After(run), p) && After(run).procs[p].pc.StopClear?
    ensures var s := After(run); var t := Move(s, p, c); var loop := s.procs[p].pc.loop;
      && LoopDone(s, loop)
      && t.run.task == (if s.run.task == Some(loop) then None else s.run.task)
      && t.run.event == s.run.event && t.run.stopping == s.run.stopping
      && t.procs[p].pc == match s.procs[p].op
         case LoadSave => ReadSave
         case Reset => WantData
         case LoadFixture(_) => WantData
         case _ => Done
  {
    RunKeepsInv(run);
    assert DrainOk(After(run), After(run).procs[p]) && Shape(After(run).procs[p]);
  }

  /** An operation that is refused in its first section is over, has touched nothing and holds
      no lock; only a reset and a scenario load have nothing there that could refuse them. */
  lemma RefusalTouchesNothing(run: seq<Action>, p: Pid, c: Choice)
    requires Enabled(After(run), p) && After(run).procs[p].pc.Holding? && c.fail
    ensures var s := After(run); var q := s.procs[p]; var t := Move(s, p, c);
      if q.op.Reset? || q.op.LoadSave? then t.procs[p].pc == Configuring && t.store == s.store && t.run == s.run
      else
        && t.procs[p].pc == Done && t.store == s.store && t.run == s.run
        && t.locks.data.None? && t.locks.reconf != Some(p) && t.locks.life != Some(p)
  {
    RunKeepsInv(run);
    assert HoldsData(After(run).procs[p]);
  }

  /** A scenario save that cannot be read ends its load before anything is touched. */
  lemma UnreadableSaveTouchesNothing(run: seq<Action>, p: Pid, c: Choice)
    requires Enabled(After(run), p) && After(run).procs[p].pc.ReadSave?
    ensures var s := After(run); var t := Move(s, p, c);
      && t.store == s.store && t.run == s.run && t.procs[p].pc == (if c.fail then Done else WantData)
      && (t.locks.reconf == Some(p) <==> !c.fail)
  {
    RunKeepsInv(run);
    assert HoldsReconf(After(run).procs[p]) && Shape(After(run).procs[p]);
  }

  /** `_task` and the stop events change only under a lifecycle lock that is free or the
      mover's own, so never between the two locks a start takes and its installing a loop. */
  lemma TaskChangesUnderItsLock(run: seq<Action>, p: Pid, c: Choice)
    requires Enabled(After(run), p) && Move(After(run), p, c).run != After(run).run
    ensures var life := After(run).locks.life; life.None? || life == Some(p)
  {
    RunKeepsInv(run);
    var s := After(run);
    assert Shape(s.procs[p]);
    assert HoldsLife(s.procs[p]) <==> s.locks.life == Some(p);
  }

  // ------------------------------------------------------------------ the snapshot

  lemma {:induction false} SelectedIds(log: seq<Item>, wanted: set<nat>, id: nat)
    ensures id in SelectIds(log, wanted) <==> id in wanted && exists i :: 0 <= i < |log| && log[i].id == id
  {
    if log == [] {
    } else {
      SelectedIds(log[1..], wanted, id);
      assert log == [log[0]] + log[1..];
    }
  }

  predicate Ascending(ids: seq<nat>) {
    forall i, j :: 0 <= i < j < |ids| ==> ids[i] < ids[j]
  }

  /** What an operation copies before it delivers: the epoch, and either ids of its own, new
      to every batch so far, or for a retry those records of the log it was asked for. */
  lemma SnapshotTakes(run: seq<Action>, p: Pid, c: Choice)
    requires p < |After(run).procs| && After(run).procs[p].pc.Holding?
    requires Move(After(run), p, c).procs[p].pc.Delivering?
    ensures var s := After(run); var q := Move(s, p, c).procs[p]; var next := Move(s, p, c).store.nextId;
      && q.epoch == s.store.epoch && q.sent == 0 && q.report.None?
      && Move(s, p, c).locks.data.None?
      && (forall id :: id in q.batch && !q.op.Retry? ==> s.store.nextId <= id < next)
      && (!q.op.Retry? && !q.op.Replay? ==> |q.batch| == c.count && Ascending(q.batch))
      && (q.op.Replay? ==> q.batch == [])
      && (q.op.Retry? ==> q.batch != [] && forall id ::
            id in q.batch <==> id in c.ids && exists i :: 0 <= i < |s.store.log| && s.store.log[i].id == id)
  {
    var s := After(run);
    RunKeepsInv(run);
    assert HoldsData(s.procs[p]);
    forall id ensures id in SelectIds(s.store.log, c.ids)
      <==> id in c.ids && exists i :: 0 <= i < |s.store.log| && s.store.log[i].id == id
    {
      SelectedIds(s.store.log, c.ids, id);
    }
  }

  /** A fixture load reads the epoch after its own clearing: it does not take that for
      somebody else's, and its one batch is of new ids. */
  lemma FixtureSnapshotTakes(run: seq<Action>, p: Pid, c: Choice)
    requires p < |After(run).procs| && After(run).procs[p].pc.Repointing? && After(run).procs[p].op.LoadFixture?
    ensures var s := After(run); var t := Move(s, p, c); var q := t.procs[p];
      if c.fail && s.procs[p].op.clears then q.pc.Done?
      else
        && q.pc == Delivering(1) && q.epoch == t.store.epoch && q.incarnation == t.store.incarnation
        && |q.batch| == c.count && Ascending(q.batch)
        && (forall id :: id in q.batch ==> s.store.nextId <= id < t.store.nextId)
        && t.locks.data.None? && t.locks.reconf.None?
  {
    RunKeepsInv(run);
    var s := After(run);
    assert HoldsData(s.procs[p]) && HoldsReconf(s.procs[p]);
  }

  /** Once the store has moved, an import, a retry or a replay sends nothing more; a step and
      a fixture load send the one request they have. */
  lemma RequestsStop(run: seq<Action>, p: Pid, c: Choice)
    requires p < |After(run).procs| && After(run).procs[p].pc.Delivering?
    ensures var s := After(run); var q := s.procs[p]; var q' := Move(s, p, c).procs[p];
      var heeds := q.op.Import? || q.op.Retry? || q.op.Replay?;
      && (q'.sent == q.sent + 1 <==> 0 < q.pc.left && (heeds ==> q.epoch == s.store.epoch))
      && (q'.sent == q.sent + 1 <==> q'.pc.Delivering?)
      && (!q'.pc.Delivering? ==> q'.sent == q.sent && q'.pc == if q.op.Replay? then Done else WantCommit)
      && q'.batch == q.batch && q'.epoch == q.epoch
  {}
}
