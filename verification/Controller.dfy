/**
 The snapshot / deliver / commit protocol of `SimulationController`.

 One step of this machine is one stretch of code between two awaits. Three locks are
 always taken in the order reconfigure, lifecycle, data; a store epoch tells a commit
 that the store moved while its batch was in flight; at most one background run loop
 is named by `task`.

 Two history variables do not exist in the program. `incarnation` changes whenever the
 store is touched (re-read, cleared or replaced). `aborts` counts the reconfigurations
 that failed after touching the store and before bumping the epoch.
 */
module Controller {
  import opened Common

  type Pid = nat

  datatype Op =
    | Start
    | Stop
    | Reset
    | LoadFixture(clears: bool)
    | LoadSave
    | Step
    | Import
    | Retry
    | Replay
    | SaveScenario
    | Integrate
    | Loop

  /** Where a coroutine is suspended. */
  datatype Pc =
    | WantReconf             // waiting for the reconfigure lock
    | WantLife               // start(): waiting for the lifecycle lock
    | StopSignal             // stop(): about to read `_task` and set its event
    | StopDrain(loop: Pid)   // stop(): awaiting that run loop
    | StopClear(loop: Pid)   // stop(): about to clear `_task`
    | ReadSave               // reading a scenario save, no data lock
    | WantData               // waiting for the data lock, first critical section
    | Holding                // inside the first critical section
    | Configuring            // store.configure running on a worker thread
    | Repointing             // store.reset / replace_all / install
    | Delivering(left: nat)  // no lock held, `left` requests still to send
    | WantCommit             // waiting for the data lock, commit section
    | Committing(ok: bool)   // inside the commit section
    | LoopCheck              // the run loop's `while` test
    | LoopSleep              // the run loop between two steps
    | Done

  /** Who wrote a record, in which incarnation it took its snapshot, and whether a
      reconfiguration was aborted between that snapshot and the commit. */
  datatype Stamp = Stamp(pid: Pid, incarnation: nat, crossedAbort: bool)

  /** A record of the log. `writer` is none for records read from disk. */
  datatype Item = Item(id: nat, writer: Option<Stamp>)

  datatype Proc = Proc(
    op: Op,
    pc: Pc,
    epoch: nat,              // copied in phase 1
    incarnation: nat,        // history: the incarnation phase 1 saw
    aborts: nat,             // history: the aborts phase 1 had seen
    batch: seq<nat>,         // ids of the records this operation is about
    total: nat,              // requests the batch needs
    sent: nat,               // requests actually sent
    added: nat,              // history: records this operation put in the log
    report: Option<nat>)     // the `stored` field of its response

  datatype Locks = Locks(reconf: Option<Pid>, life: Option<Pid>, data: Option<Pid>)

  datatype Runner = Runner(
    task: Option<Pid>,       // `_task`
    event: Option<Pid>,      // the loop that waits on `_stop_event`
    stopping: set<Pid>)      // loops whose stop event is set

  datatype Store = Store(epoch: nat, incarnation: nat, aborts: nat, log: seq<Item>, nextId: nat)

  datatype State = State(procs: seq<Proc>, locks: Locks, run: Runner, store: Store)

  /** What the environment decides at a step: whether the code raises, how many
      records or requests there are, and what is read from disk. */
  datatype Choice = Choice(fail: bool, count: nat, requests: nat, ids: set<nat>, disk: seq<nat>)

  datatype Action = Spawn(op: Op) | Run(pid: Pid, choice: Choice)

  const INITIAL: State :=
    State([], Locks(None, None, None), Runner(None, None, {}), Store(0, 0, 0, [], 0))

  predicate Reconfigures(op: Op) {
    op.Reset? || op.LoadFixture? || op.LoadSave?
  }

  function FirstPc(op: Op): Pc {
    if op.Start? || Reconfigures(op) then WantReconf
    else if op.Stop? then StopSignal
    else if op.Loop? then LoopCheck
    else WantData
  }

  function NewProc(op: Op): Proc {
    Proc(op, FirstPc(op), 0, 0, 0, [], 0, 0, 0, None)
  }

  predicate LoopDone(s: State, loop: Pid) {
    loop < |s.procs| ==> s.procs[loop].pc.Done?
  }

  /** `SimulationController.running` */
  predicate Running(s: State) {
    s.run.task.Some? && !LoopDone(s, s.run.task.value)
  }

  predicate Live(s: State, p: Pid) {
    p < |s.procs| && s.procs[p].op.Loop? && !s.procs[p].pc.Done?
  }

  predicate Enabled(s: State, p: Pid) {
    p < |s.procs| &&
    match s.procs[p].pc
    case Done => false
    case WantReconf => s.locks.reconf.None?
    case WantLife => s.locks.life.None?
    case StopSignal => s.locks.life.None?
    case StopClear(_) => s.locks.life.None?
    case StopDrain(loop) => LoopDone(s, loop)
    case WantData => s.locks.data.None?
    case WantCommit => s.locks.data.None?
    case _ => true
  }

  // ------------------------------------------------------------------ steps

  function At(s: State, p: Pid, pc: Pc): State
    requires p < |s.procs|
  {
    s.(procs := s.procs[p := s.procs[p].(pc := pc)])
  }

  function Without(owner: Option<Pid>, p: Pid): Option<Pid> {
    if owner == Some(p) then None else owner
  }

  /** Leaving every `async with` this operation is in, whatever it still holds. */
  function Release(l: Locks, p: Pid): Locks {
    Locks(Without(l.reconf, p), Without(l.life, p), Without(l.data, p))
  }

  function Finish(s: State, p: Pid): State
    requires p < |s.procs|
  {
    At(s, p, Done).(locks := Release(s.locks, p))
  }

  function FromDisk(ids: seq<nat>): (r: seq<Item>)
    ensures |r| == |ids| && forall i :: 0 <= i < |r| ==> r[i].writer.None?
  {
    seq(|ids|, i requires 0 <= i < |ids| => Item(ids[i], None))
  }

  /** The store was touched: a new incarnation whose records come from disk. */
  function Touch(t: Store, disk: seq<nat>): Store {
    t.(incarnation := t.incarnation + 1, log := FromDisk(disk))
  }

  /** An exception after the store was touched and before the epoch was bumped. */
  function Abort(s: State, p: Pid, t: Store): State
    requires p < |s.procs|
  {
    Finish(s, p).(store := t.(aborts := t.aborts + 1))
  }

  /** The last statements of a reconfiguration that succeeds. */
  function Repointed(s: State, p: Pid, t: Store): State
    requires p < |s.procs|
  {
    Finish(s, p).(store := t.(epoch := t.epoch + 1))
  }

  function Ids(from: nat, count: nat): (r: seq<nat>) {
    seq(count, i requires 0 <= i => from + i)
  }

  function SelectIds(log: seq<Item>, wanted: set<nat>): seq<nat> {
    if log == [] then []
    else if log[0].id in wanted then [log[0].id] + SelectIds(log[1..], wanted)
    else SelectIds(log[1..], wanted)
  }

  function Batch(op: Op, t: Store, c: Choice): seq<nat> {
    if op.Retry? then SelectIds(t.log, c.ids)
    else if op.Replay? then []
    else Ids(t.nextId, c.count)
  }

  /** Phase 1: copy what the delivery needs, release the locks. */
  function Snapshot(s: State, p: Pid, t: Store, c: Choice): State
    requires p < |s.procs|
  {
    var op := s.procs[p].op;
    var requests := if op.Import? || op.Retry? || op.Replay? then c.requests else 1;
    var q := Proc(op, Delivering(requests), t.epoch, t.incarnation, t.aborts,
                  Batch(op, t, c), requests, 0, 0, None);
    State(s.procs[p := q], Release(s.locks, p), s.run, t.(nextId := t.nextId + c.count))
  }

  function InFirstSection(s: State, p: Pid, c: Choice): State
    requires p < |s.procs|
  {
    var op := s.procs[p].op;
    if op.SaveScenario? || op.Integrate? then Finish(s, p)
    // A 409, an invalid delivery, an unreadable file: nothing was touched yet.
    else if c.fail && !op.Reset? && !op.LoadSave? then Finish(s, p)
    else if op.Start? || Reconfigures(op) then At(s, p, Configuring)
    else if op.Retry? && SelectIds(s.store.log, c.ids) == [] then Finish(s, p)
    else Snapshot(s, p, s.store, c)
  }

  function InConfiguring(s: State, p: Pid, c: Choice): State
    requires p < |s.procs|
  {
    var t := Touch(s.store, c.disk);
    if c.fail then Abort(s, p, t) else At(s, p, Repointing).(store := t)
  }

  /** start(): bump the epoch, install a run loop unless one is running. */
  function Install(s: State, p: Pid): State
    requires p < |s.procs|
  {
    var t := Repointed(s, p, s.store);
    if Running(s) then t
    else
      var loop := |s.procs|;
      t.(procs := t.procs + [NewProc(Loop)], run := s.run.(task := Some(loop), event := Some(loop)))
  }

  /** reset(): store.reset, then the bump. */
  function Cleared(s: State, p: Pid, c: Choice): State
    requires p < |s.procs|
  {
    if c.fail then Abort(s, p, Touch(s.store, c.disk))
    else Repointed(s, p, Touch(s.store, []))
  }

  /** load_scenario_save(): replace_all, then the bump. A failed rewrite leaves the log. */
  function Replaced(s: State, p: Pid, c: Choice): State
    requires p < |s.procs|
  {
    if c.fail then Abort(s, p, s.store)
    else Repointed(s, p, Touch(s.store, c.disk))
  }

  /** load_demo_fixture(): an optional store.reset, the bump, then its own snapshot. */
  function FixtureReady(s: State, p: Pid, clears: bool, c: Choice): State
    requires p < |s.procs|
  {
    if clears && c.fail then Abort(s, p, Touch(s.store, c.disk))
    else
      var t := if clears then Touch(s.store, []) else s.store;
      Snapshot(s, p, t.(epoch := t.epoch + 1), c)
  }

  function InRepointing(s: State, p: Pid, c: Choice): State
    requires p < |s.procs|
  {
    match s.procs[p].op
    case Start => Install(s, p)
    case Reset => Cleared(s, p, c)
    case LoadFixture(clears) => FixtureReady(s, p, clears, c)
    case _ => Replaced(s, p, c)
  }

  /** Phase 2: one more request, unless none is left or the store moved. */
  function InDelivering(s: State, p: Pid): State
    requires p < |s.procs| && s.procs[p].pc.Delivering?
  {
    var q := s.procs[p];
    var asks := q.op.Import? || q.op.Retry? || q.op.Replay?;
    if q.pc.left == 0 || (asks && q.epoch != s.store.epoch) then
      At(s, p, if q.op.Replay? then Done else WantCommit)
    else
      s.(procs := s.procs[p := q.(pc := Delivering(q.pc.left - 1), sent := q.sent + 1)])
  }

  function StampOf(s: State, p: Pid): Stamp
    requires p < |s.procs|
  {
    Stamp(p, s.procs[p].incarnation, s.procs[p].aborts != s.store.aborts)
  }

  function Appended(log: seq<Item>, ids: seq<nat>, stamp: Stamp): seq<Item> {
    log + seq(|ids|, i requires 0 <= i < |ids| => Item(ids[i], Some(stamp)))
  }

  /** update_many: records are replaced in place, never added. */
  function Rewritten(log: seq<Item>, ids: seq<nat>, stamp: Stamp): seq<Item> {
    seq(|log|, i requires 0 <= i < |log| =>
      if log[i].id in ids then Item(log[i].id, Some(stamp)) else log[i])
  }

  /** A step of the run loop goes back to sleep; every other operation is over. */
  function AfterCommit(op: Op): Pc {
    if op.Loop? then LoopSleep else Done
  }

  /** The log after the commit section. A write error leaves a prefix of an append on
      disk and nothing of a rewrite. */
  function CommittedLog(s: State, p: Pid, c: Choice): (log: seq<Item>)
    requires p < |s.procs| && s.procs[p].pc.Committing?
    ensures |s.store.log| <= |log|
  {
    var q := s.procs[p];
    if !q.pc.ok then s.store.log
    else if q.op.Retry? then (if c.fail then s.store.log else Rewritten(s.store.log, q.batch, StampOf(s, p)))
    else if !c.fail then Appended(s.store.log, q.batch, StampOf(s, p))
    else if c.count <= |q.batch| then Appended(s.store.log, q.batch[..c.count], StampOf(s, p))
    else s.store.log
  }

  /** Phase 3: `committed` was decided on entry; a dropped batch reports zero. */
  function InCommitting(s: State, p: Pid, c: Choice): State
    requires p < |s.procs| && s.procs[p].pc.Committing?
  {
    var q := s.procs[p];
    var log := CommittedLog(s, p, c);
    var raised := q.pc.ok && c.fail;
    var report := if raised then None
                  else if q.pc.ok && !q.op.Retry? then Some(|q.batch|)
                  else Some(0);
    var q' := q.(pc := if raised then Done else AfterCommit(q.op),
                 added := |log| - |s.store.log|,
                 report := report);
    State(s.procs[p := q'], Release(s.locks, p), s.run, s.store.(log := log))
  }

  function AfterStop(op: Op): Pc {
    if op.LoadSave? then ReadSave else if Reconfigures(op) then WantData else Done
  }

  /** stop(), first half: signal the loop `_task` names, under the lifecycle lock. */
  function InStopSignal(s: State, p: Pid): State
    requires p < |s.procs|
  {
    if s.run.task.None? then At(s, p, AfterStop(s.procs[p].op))
    else
      var signalled := if s.run.event.Some? then {s.run.event.value} else {};
      At(s, p, StopDrain(s.run.task.value)).(run := s.run.(stopping := s.run.stopping + signalled))
  }

  /** stop(), second half: clear `_task` only if it still names that loop. */
  function InStopClear(s: State, p: Pid): State
    requires p < |s.procs| && s.procs[p].pc.StopClear?
  {
    At(s, p, AfterStop(s.procs[p].op))
      .(run := s.run.(task := Without(s.run.task, s.procs[p].pc.loop)))
  }

  /** Taking a lock that is free. */
  function Take(s: State, p: Pid): State
    requires p < |s.procs|
  {
    match s.procs[p].pc
    case WantReconf =>
      At(s, p, if s.procs[p].op.Start? then WantLife else StopSignal).(locks := s.locks.(reconf := Some(p)))
    case WantLife => At(s, p, WantData).(locks := s.locks.(life := Some(p)))
    case WantCommit =>
      At(s, p, Committing(s.procs[p].epoch == s.store.epoch)).(locks := s.locks.(data := Some(p)))
    case _ => At(s, p, Holding).(locks := s.locks.(data := Some(p)))
  }

  /** Waking up, or testing the run loop's `while` condition. */
  function Wake(s: State, p: Pid, c: Choice): State
    requires p < |s.procs|
  {
    match s.procs[p].pc
    case StopDrain(loop) => At(s, p, StopClear(loop))
    case ReadSave => if c.fail then Finish(s, p) else At(s, p, WantData)
    case LoopCheck => At(s, p, if p in s.run.stopping then Done else WantData)
    case _ => At(s, p, LoopCheck)
  }

  function Move(s: State, p: Pid, c: Choice): State
    requires Enabled(s, p)
  {
    match s.procs[p].pc
    case StopSignal => InStopSignal(s, p)
    case StopClear(_) => InStopClear(s, p)
    case Holding => InFirstSection(s, p, c)
    case Configuring => InConfiguring(s, p, c)
    case Repointing => InRepointing(s, p, c)
    case Delivering(_) => InDelivering(s, p)
    case Committing(_) => InCommitting(s, p, c)
    case WantReconf => Take(s, p)
    case WantLife => Take(s, p)
    case WantData => Take(s, p)
    case WantCommit => Take(s, p)
    case _ => Wake(s, p, c)
  }

  function Next(s: State, a: Action): State {
    match a
    case Spawn(op) => if op.Loop? then s else s.(procs := s.procs + [NewProc(op)])
    case Run(p, c) => if Enabled(s, p) then Move(s, p, c) else s
  }

  function Exec(s: State, run: seq<Action>): State
    decreases |run|
  {
    if run == [] then s else Next(Exec(s, run[..|run| - 1]), run[|run| - 1])
  }
}
