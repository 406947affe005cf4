/**
 Lock order makes every wait end: each unfinished operation is blocked, if at all, by a
 chain of waits that stops at a coroutine able to move, and no operation moves for ever.
 */
module ControllerProgress {
  import opened Common
  import opened Controller
  import opened ControllerSafety

  /** How far down the lock order a suspended coroutine waits. */
  function Level(pc: Pc): nat {
    match pc
    case WantReconf => 4
    case WantLife => 3
    case StopSignal => 3
    case StopClear(_) => 3
    case StopDrain(_) => 2
    case WantData => 1
    case WantCommit => 1
    case _ => 0
  }

  predicate Unfinished(s: State, p: Pid) {
    p < |s.procs| && !s.procs[p].pc.Done?
  }

  /** The coroutine that a blocked one waits for: a lock's owner, or a draining loop. */
  predicate WaitsFor(s: State, p: Pid, q: Pid) {
    && Unfinished(s, p)
    && match s.procs[p].pc
       case WantReconf => s.locks.reconf == Some(q)
       case WantLife => s.locks.life == Some(q)
       case StopSignal => s.locks.life == Some(q)
       case StopClear(_) => s.locks.life == Some(q)
       case StopDrain(loop) => q == loop
       case WantData => s.locks.data == Some(q)
       case WantCommit => s.locks.data == Some(q)
       case _ => false
  }

  function Owner(lock: Option<Pid>): Pid {
    if lock.Some? then lock.value else 0
  }

  lemma BlockerIsLower(s: State, p: Pid) returns (q: Pid)
    requires Inv(s) && Unfinished(s, p) && !Enabled(s, p)
    ensures Unfinished(s, q) && WaitsFor(s, p, q) && Level(s.procs[q].pc) < Level(s.procs[p].pc)
  {
    var pc := s.procs[p].pc;
    q := if pc.StopDrain? then pc.loop
         else if pc.WantReconf? then Owner(s.locks.reconf)
         else if pc.WantData? || pc.WantCommit? then Owner(s.locks.data)
         else Owner(s.locks.life);
    assert DrainOk(s, s.procs[p]);
    assert q < |s.procs|;
    assert Shape(s.procs[q]);
  }

  /** A chain of waits that ends at a coroutine that can move. */
  ghost predicate WaitChain(s: State, chain: seq<Pid>) {
    && chain != []
    && Enabled(s, chain[|chain| - 1])
    && forall i :: 0 <= i < |chain| - 1 ==> WaitsFor(s, chain[i], chain[i + 1])
  }

  lemma {:induction false} ChainExists(s: State, p: Pid) returns (chain: seq<Pid>)
    requires Inv(s) && Unfinished(s, p)
    ensures WaitChain(s, chain) && chain[0] == p && |chain| <= Level(s.procs[p].pc) + 1
    decreases Level(s.procs[p].pc)
  {
    if Enabled(s, p) {
      chain := [p];
    } else {
      var q := BlockerIsLower(s, p);
      var rest := ChainExists(s, q);
      chain := [p] + rest;
    }
  }

  /** No reachable state is stuck: whoever waits, waits for somebody who can move. */
  lemma NothingIsStuck(run: seq<Action>, p: Pid)
    requires Unfinished(After(run), p)
    ensures exists chain :: WaitChain(After(run), chain) && chain[0] == p && |chain| <= 5
  {
    RunKeepsInv(run);
    var chain := ChainExists(After(run), p);
  }

  // --------------------------------------------------- no operation moves for ever

  /** What is still ahead of a coroutine: the sections left to enter. */
  function Phase(pc: Pc): nat {
    match pc
    case Done => 0
    case LoopCheck => 1
    case LoopSleep => 2
    case Committing(_) => 3
    case WantCommit => 4
    case Delivering(_) => 5
    case Repointing => 6
    case Configuring => 7
    case Holding => 8
    case WantData => 9
    case ReadSave => 10
    case WantLife => 11
    case StopClear(_) => 12
    case StopDrain(_) => 13
    case StopSignal => 14
    case WantReconf => 15
  }

  /** The sections left to enter and the requests left to send. */
  function Rank(pc: Pc): nat {
    Phase(pc) + if pc.Delivering? then pc.left else 0
  }

  /** Before its snapshot an operation does not know how many requests it will send. */
  predicate Unsent(q: Proc) {
    !q.op.Loop? && Phase(q.pc) > 5 ==> q.total == 0
  }

  /** A run loop passes its `while` test. */
  predicate BeginsStep(q: Proc, q': Proc) {
    q.op.Loop? && q.pc.LoopCheck? && q'.pc.WantData?
  }

  /** A move uses up one of the moves left, and a snapshot adds the requests of its batch;
      only a run loop that begins a step starts over. */
  predicate Spends(q: Proc, q': Proc) {
    if q.op.Loop? then Rank(q'.pc) < Rank(q.pc) || BeginsStep(q, q')
    else Rank(q'.pc) + q.total < Rank(q.pc) + q'.total
  }

  predicate MoveSpends(s: State, t: State, p: Pid)
    requires p < |s.procs|
  {
    p < |t.procs| && t.procs[p].op == s.procs[p].op && Spends(s.procs[p], t.procs[p]) && Unsent(t.procs[p])
  }

  lemma SnapshotSpends(s: State, p: Pid, t: Store, c: Choice)
    requires p < |s.procs| && Unsent(s.procs[p]) && Phase(s.procs[p].pc) >= if s.procs[p].op.Loop? then 8 else 6
    ensures MoveSpends(s, Snapshot(s, p, t, c), p)
  {
    hide Batch;
  }

  lemma FirstSectionSpends(s: State, p: Pid, c: Choice)
    requires p < |s.procs| && s.procs[p].pc.Holding? && Unsent(s.procs[p])
    ensures MoveSpends(s, InFirstSection(s, p, c), p)
  {
    hide Snapshot, SelectIds;
    SnapshotSpends(s, p, s.store, c);
  }

  lemma FixtureSpends(s: State, p: Pid, clears: bool, c: Choice)
    requires p < |s.procs| && s.procs[p].pc.Repointing? && Unsent(s.procs[p]) && !s.procs[p].op.Loop?
    ensures MoveSpends(s, FixtureReady(s, p, clears, c), p)
  {
    hide Snapshot;
    var t := if clears then Touch(s.store, []) else s.store;
    SnapshotSpends(s, p, t.(epoch := t.epoch + 1), c);
  }

  lemma RepointingSpends(s: State, p: Pid, c: Choice)
    requires p < |s.procs| && s.procs[p].pc.Repointing? && Unsent(s.procs[p]) && Shape(s.procs[p])
    ensures MoveSpends(s, InRepointing(s, p, c), p)
  {
    hide FixtureReady, Running;
    if s.procs[p].op.LoadFixture? {
      FixtureSpends(s, p, s.procs[p].op.clears, c);
    }
  }

  lemma WaitSpends(s: State, p: Pid)
    requires p < |s.procs| && Waits(s.procs[p].pc) && Unsent(s.procs[p])
    ensures MoveSpends(s, Take(s, p), p)
  {}

  lemma WakeSpends(s: State, p: Pid, c: Choice)
    requires p < |s.procs| && Wakes(s.procs[p].pc) && Unsent(s.procs[p]) && Shape(s.procs[p])
    ensures MoveSpends(s, Wake(s, p, c), p)
  {}

  lemma StopSpends(s: State, p: Pid)
    requires p < |s.procs| && Stopping(s.procs[p].pc) && Unsent(s.procs[p]) && Shape(s.procs[p])
    ensures s.procs[p].pc.StopSignal? ==> MoveSpends(s, InStopSignal(s, p), p)
    ensures s.procs[p].pc.StopClear? ==> MoveSpends(s, InStopClear(s, p), p)
  {}

  lemma CommitSpends(s: State, p: Pid, c: Choice)
    requires p < |s.procs| && s.procs[p].pc.Committing? && Unsent(s.procs[p])
    ensures MoveSpends(s, InCommitting(s, p, c), p)
  {
    hide CommittedLog;
  }

  lemma DeliverySpends(s: State, p: Pid)
    requires p < |s.procs| && s.procs[p].pc.Delivering? && Unsent(s.procs[p])
    ensures MoveSpends(s, InDelivering(s, p), p)
  {}

  lemma ConfigureSpends(s: State, p: Pid, c: Choice)
    requires p < |s.procs| && s.procs[p].pc.Configuring? && Unsent(s.procs[p])
    ensures MoveSpends(s, InConfiguring(s, p, c), p)
  {}

  /** Each move of an operation uses up a move, and so does each move of a run loop that does
      not begin a step. */
  lemma EachMoveSpends(s: State, p: Pid, c: Choice)
    requires Enabled(s, p) && Shape(s.procs[p]) && Unsent(s.procs[p])
    ensures MoveSpends(s, Move(s, p, c), p)
  {
    hide InFirstSection, InConfiguring, InRepointing, InDelivering, InCommitting, InStopSignal, InStopClear, Take, Wake;
    hide Shape, Unsent, MoveSpends;
    var pc := s.procs[p].pc;
    if pc.Holding? {
      FirstSectionSpends(s, p, c);
    } else if pc.Configuring? {
      ConfigureSpends(s, p, c);
    } else if pc.Repointing? {
      RepointingSpends(s, p, c);
    } else if pc.Delivering? {
      DeliverySpends(s, p);
    } else if pc.Committing? {
      CommitSpends(s, p, c);
    } else if Stopping(pc) && !pc.StopDrain? {
      StopSpends(s, p);
    } else if Waits(pc) {
      WaitSpends(s, p);
    } else {
      WakeSpends(s, p, c);
    }
  }

  // ------------------------------------------------------------------ over whole runs

  predicate Moves(s: State, a: Action, p: Pid) {
    a.Run? && a.pid == p && Enabled(s, p)
  }

  predicate MovesOn(s: State, a: Action, p: Pid) {
    Moves(s, a, p) && p < |Next(s, a).procs| && BeginsStep(s.procs[p], Next(s, a).procs[p])
  }

  /** How often `p` moves in a run from `s`. */
  function Made(s: State, run: seq<Action>, p: Pid): nat
    decreases |run|
  {
    if run == [] then 0
    else
      var n := |run| - 1;
      Made(s, run[..n], p) + if Moves(Exec(s, run[..n]), run[n], p) then 1 else 0
  }

  /** How many steps the run loop `p` begins in a run from `s`. */
  function Begun(s: State, run: seq<Action>, p: Pid): nat
    decreases |run|
  {
    if run == [] then 0
    else
      var n := |run| - 1;
      Begun(s, run[..n], p) + if MovesOn(Exec(s, run[..n]), run[n], p) then 1 else 0
  }

  predicate WithinBudget(q: Proc, made: nat) {
    if q.op.Loop? then Rank(q.pc) <= 9 else Unsent(q) && made + Rank(q.pc) <= 15 + q.total
  }

  /** Nobody else's move touches a coroutine, and a stop event stays set. */
  lemma OthersLeaveIt(s: State, a: Action, p: Pid)
    requires Inv(s) && p < |s.procs| && !Moves(s, a, p)
    ensures p < |Next(s, a).procs| && Next(s, a).procs[p] == s.procs[p]
    ensures s.run.stopping <= Next(s, a).run.stopping
  {
    hide Inv, Move, LockMove, EpochMove, ReportMove, Enabled;
    if a.Run? && Enabled(s, a.pid) {
      InvHere(s, a.pid);
      hide Here;
      MoveEffect(s, a.pid, a.choice);
    }
  }

  /** A coroutine that has just been created has its whole budget. */
  lemma Arrives(s: State, a: Action, p: Pid)
    requires Inv(s) && |s.procs| <= p < |Next(s, a).procs|
    ensures WithinBudget(Next(s, a).procs[p], 0)
  {
    hide Inv, Move, LockMove, EpochMove, ReportMove, TaskMove, Enabled;
    if a.Run? && Enabled(s, a.pid) {
      InvHere(s, a.pid);
      hide Here;
      MoveEffect(s, a.pid, a.choice);
    }
  }

  lemma StepWithinBudget(s: State, a: Action, p: Pid, made: nat)
    requires Inv(s) && p < |s.procs| && WithinBudget(s.procs[p], made)
    ensures p < |Next(s, a).procs|
    ensures WithinBudget(Next(s, a).procs[p], made + if Moves(s, a, p) then 1 else 0)
  {
    if Moves(s, a, p) {
      assert Shape(s.procs[p]);
      hide Inv, Shape, Move, Enabled;
      EachMoveSpends(s, p, a.choice);
    } else {
      OthersLeaveIt(s, a, p);
    }
  }

  /** Over any run an operation makes at most fifteen moves and one for each request of its
      batch, and what it has left is what separates it from its end. */
  lemma {:induction false} OperationIsBounded(run: seq<Action>, p: Pid)
    ensures if p < |After(run).procs| then WithinBudget(After(run).procs[p], Made(INITIAL, run, p))
            else Made(INITIAL, run, p) == 0
    decreases |run|
  {
    if run == [] {
    } else {
      var n := |run| - 1;
      var s := After(run[..n]);
      OperationIsBounded(run[..n], p);
      RunKeepsInv(run[..n]);
      hide Inv, Next, WithinBudget;
      if p < |s.procs| {
        StepWithinBudget(s, run[n], p, Made(INITIAL, run[..n], p));
      } else if p < |After(run).procs| {
        Arrives(s, run[n], p);
      }
    }
  }

  lemma SignalledLoopStops(s: State, g: Pid, c: Choice)
    requires Enabled(s, g) && s.procs[g].op.Loop? && g in s.run.stopping && s.procs[g].pc.LoopCheck?
    ensures Move(s, g, c) == At(s, g, Done)
  {}

  predicate Signalled(s: State, g: Pid) {
    g < |s.procs| && s.procs[g].op.Loop? && g in s.run.stopping
  }

  lemma SignalledMove(s: State, g: Pid, c: Choice)
    requires Inv(s) && Signalled(s, g) && Enabled(s, g)
    ensures var t := Move(s, g, c);
      Signalled(t, g) && !BeginsStep(s.procs[g], t.procs[g]) && Rank(t.procs[g].pc) < Rank(s.procs[g].pc)
  {
    InvHere(s, g);
    assert Shape(s.procs[g]);
    hide Inv, Here, Shape, Move, Enabled, LockMove, EpochMove, ReportMove;
    MoveEffect(s, g, c);
    EachMoveSpends(s, g, c);
    if s.procs[g].pc.LoopCheck? {
      SignalledLoopStops(s, g, c);
    }
  }

  /** One action of anybody: a signalled run loop stays so, and it only winds down. */
  lemma SignalledStep(s: State, a: Action, g: Pid)
    requires Inv(s) && Signalled(s, g)
    ensures var t := Next(s, a);
      && Signalled(t, g) && !MovesOn(s, a, g)
      && Rank(t.procs[g].pc) + (if Moves(s, a, g) then 1 else 0) <= Rank(s.procs[g].pc)
  {
    hide Inv, Move, Rank, Enabled, BeginsStep;
    if Moves(s, a, g) {
      SignalledMove(s, g, a.choice);
    } else {
      OthersLeaveIt(s, a, g);
    }
  }

  /** From the moment its stop event is set a run loop begins no step in any continuation:
      its moves are those of the step it is in. */
  lemma {:induction false} SignalledLoopWindsDown(s: State, run: seq<Action>, g: Pid)
    requires Inv(s) && Signalled(s, g)
    ensures var t := Exec(s, run);
      && Inv(t) && Signalled(t, g)
      && Begun(s, run, g) == 0 && Made(s, run, g) + Rank(t.procs[g].pc) <= Rank(s.procs[g].pc)
    decreases |run|
  {
    if run == [] {
    } else {
      hide Inv, Next, Moves, MovesOn, Rank;
      var n := |run| - 1;
      SignalledLoopWindsDown(s, run[..n], g);
      SignalledStep(Exec(s, run[..n]), run[n], g);
      NextKeepsInv(Exec(s, run[..n]), run[n]);
    }
  }

  /** In any run and any continuation of it: a run loop whose event is set begins no further
      step and makes at most nine more moves. */
  lemma StoppedLoopEnds(run: seq<Action>, more: seq<Action>, g: Pid)
    requires Signalled(After(run), g)
    ensures Begun(After(run), more, g) == 0 && Made(After(run), more, g) <= 9
  {
    hide Inv, Next, Rank;
    RunKeepsInv(run);
    OperationIsBounded(run, g);
    SignalledLoopWindsDown(After(run), more, g);
  }

  /** Whoever drains a run loop drains one whose stop event is set. */
  lemma DrainedLoopIsSignalled(run: seq<Action>, p: Pid)
    requires p < |After(run).procs| && After(run).procs[p].pc.StopDrain?
    ensures Signalled(After(run), After(run).procs[p].pc.loop)
  {
    RunKeepsInv(run);
    assert DrainOk(After(run), After(run).procs[p]);
  }
}
