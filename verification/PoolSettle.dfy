/**
From a stop that has just begun, a run in which every worker finishes what it
has in hand, restarts if it has to, and comes to wait for a task, without
dequeuing anything.
*/
module PoolSettle {
  import opened Options
  import T = Tasks
  import L = TaskLife
  import opened PoolMachine
  import opened PoolInvariant
  import opened PoolShutSteps
  import opened PoolShutdown
  import opened PoolTheorems
  import opened PoolAlive
  import opened PoolRuns

  // ----- Tasks that end -----

  /** A long task that waits for a timer which is not, or will not be, started. */
  predicate Hangs(t: T.Task, workerTimeout: int) {
    if t.pc.Unlocked? || t.pc.Locked? || t.pc.Begin? then
      !T.IsShort(t) && T.EffectiveTimeout(t.timeout, workerTimeout) <= 0
    else if t.pc.Arm? then T.EffectiveTimeout(t.timeout, workerTimeout) <= 0
    else L.Untimed(t)
  }

  /** The number of steps process still needs at most. */
  function TaskRank(t: T.Task): nat {
    match t.pc
    case Unlocked => 0
    case Locked => 20
    case Begin => 19
    case ShortRun => 18
    case ShortDone => 17
    case Arm => 18
    case Select => if t.run.timer.Armed? then 17 else 16
    case StopTimer => 15
    case DrainTimer => if t.run.timer.Armed? then 14 else 13
    case LongDone => 12
    case CancelCtx => 13
    case CloseLocalDone => 12
    case Signal(_) => 6
    case SignalWg(_) => 5
    case Recover(_) => 4
    case Unlocking => 3
  }

  /** The next step of a process call that does not hang; WgDone depends on the counter. */
  function NextOf(t: T.Task, workerTimeout: int, wgOk: bool): T.ProcessLabel
    requires !t.pc.Unlocked? && !t.pc.Unlocking?
  {
    match t.pc
    case Locked => T.Check
    case Begin => T.Start
    case ShortRun => T.ShortReturn(None, [])
    case ShortDone => T.ShortFinish
    case Arm => T.ArmTimer(workerTimeout)
    case Select => T.RecvTimeout
    case StopTimer => T.TimerStop
    case DrainTimer => T.TimerDrain
    case LongDone => T.LongFinish
    case CancelCtx => T.CancelContext
    case CloseLocalDone => T.CloseDone
    case Signal(_) => T.SendDone(true)
    case SignalWg(_) => T.WgDone(wgOk)
    case Recover(_) => T.Recovered
  }

  /** The timer has to fire before process can go on. */
  predicate AwaitsTimer(t: T.Task) {
    (t.pc.Select? || t.pc.DrainTimer?) && t.run.timer.Armed?
  }

  predicate Advances(t: T.Task, u: T.Task, workerTimeout: int) {
    TaskRank(u) < TaskRank(t) && !u.pc.Unlocked? && !Hangs(u, workerTimeout)
  }

  predicate Closing(pc: T.Pc) {
    pc.CancelCtx? || pc.CloseLocalDone? || pc.Signal? || pc.SignalWg? || pc.Recover?
  }

  lemma ClosingGoesOn(t: T.Task, workerTimeout: int, wgOk: bool)
    requires Closing(t.pc) && (t.wg.Some? || wgOk)
    ensures var next := T.ProcessStep(t, NextOf(t, workerTimeout, wgOk));
      next.Some? && Advances(t, next.value, workerTimeout)
  {
  }

  lemma WorkingGoesOn(t: T.Task, workerTimeout: int, wgOk: bool)
    requires !Closing(t.pc) && !t.pc.Unlocked? && !t.pc.Unlocking? && !AwaitsTimer(t) && !Hangs(t, workerTimeout)
    ensures var next := T.ProcessStep(t, NextOf(t, workerTimeout, wgOk));
      next.Some? && Advances(t, next.value, workerTimeout)
  {
  }

  lemma TaskGoesOn(t: T.Task, workerTimeout: int, wgOk: bool)
    requires !t.pc.Unlocked? && !t.pc.Unlocking? && !AwaitsTimer(t) && !Hangs(t, workerTimeout)
    requires t.wg.Some? || wgOk
    ensures var next := T.ProcessStep(t, NextOf(t, workerTimeout, wgOk));
      next.Some? && Advances(t, next.value, workerTimeout)
  {
    if Closing(t.pc) {
      ClosingGoesOn(t, workerTimeout, wgOk);
    } else {
      WorkingGoesOn(t, workerTimeout, wgOk);
    }
  }

  lemma TimerGoesOn(t: T.Task, workerTimeout: int)
    requires AwaitsTimer(t)
    ensures T.OutsideStep(t, T.TimerFire).Some?
    ensures Advances(t, T.OutsideStep(t, T.TimerFire).value, workerTimeout)
  {
  }

  // ----- How far the workers are from waiting -----

  function PcRank(pc: RunPc, tasks: map<TaskId, T.Task>): nat {
    match pc
    case Receive => 0
    case NotRunning => 0
    case Top => 1
    case Releasing => 1
    case MakeStop => 2
    case Metrics => 2
    case CheckRun => 3
    case After(_) => 3
    case Inside(t) => 4 + (if t in tasks then TaskRank(tasks[t]) else 0)
    case Entering(_) => 25
    case Got(_) => 26
    case Reporting => 8
    case Panicking => 9
    case BadState => 0
    case Terminating => 0
  }

  function WorkerRank(k: Worker, tasks: map<TaskId, T.Task>): nat {
    4 * k.spawned + 7 * k.failing + PcRank(k.pc, tasks)
  }

  function Sum(workers: seq<Worker>, tasks: map<TaskId, T.Task>): nat {
    if workers == [] then 0 else WorkerRank(workers[0], tasks) + Sum(workers[1..], tasks)
  }

  /** An unread error costs a read and a restart. */
  function Distance(s: Pool): nat {
    Sum(s.workers, s.tasks) + 6 * |s.errs.items| + (if s.ctl.runner.Restarting? then 5 else 0)
  }

  lemma {:induction false} SumChanges(workers: seq<Worker>, w: nat, u: Worker, a: map<TaskId, T.Task>, b: map<TaskId, T.Task>)
    requires w < |workers|
    requires forall v: nat :: v < |workers| && v != w ==> WorkerRank(workers[v], b) == WorkerRank(workers[v], a)
    ensures Sum(workers[w := u], b) + WorkerRank(workers[w], a) == Sum(workers, a) + WorkerRank(u, b)
    decreases |workers|
  {
    var after := workers[w := u];
    if w == 0 {
      assert after[1..] == workers[1..];
      SumIsSame(workers[1..], a, b);
    } else {
      assert after[1..] == workers[1..][w - 1 := u];
      SumChanges(workers[1..], w - 1, u, a, b);
      assert WorkerRank(workers[0], b) == WorkerRank(workers[0], a);
    }
  }

  lemma {:induction false} SumIsSame(workers: seq<Worker>, a: map<TaskId, T.Task>, b: map<TaskId, T.Task>)
    requires forall v: nat :: v < |workers| ==> WorkerRank(workers[v], b) == WorkerRank(workers[v], a)
    ensures Sum(workers, b) == Sum(workers, a)
  {
    if workers != [] {
      SumIsSame(workers[1..], a, b);
    }
  }

  // ----- One step closer -----

  predicate MayHang(pc: RunPc) {
    pc.Got? || pc.Entering? || pc.Inside?
  }

  predicate WorkerGoesOn(k: Worker, tasks: map<TaskId, T.Task>, workerTimeout: int) {
    MayHang(k.pc) ==> k.pc.t in tasks && !Hangs(tasks[k.pc.t], workerTimeout)
  }

  /** No worker holds a task that would hang. */
  ghost predicate NoneHangs(s: Pool) {
    forall w: nat :: w < |s.workers| ==> WorkerGoesOn(s.workers[w], s.tasks, s.cfg.workerTimeout)
  }

  /** Stop has begun, and RunBG is in its loop. */
  ghost predicate Beginning(s: Pool) {
    && Good(s) && Alive(s) && NoneHangs(s)
    && s.ctl.shut.CloseQueue? && s.ctl.lock.StopLock? && (s.ctl.runner.Selecting? || s.ctl.runner.Restarting?)
  }

  ghost predicate AllReceiving(s: Pool) {
    forall w: nat :: w < |s.workers| ==> s.workers[w].pc.Receive?
  }

  /** The same stop, nearer to all workers waiting, with the queue and its tasks as they were. */
  ghost predicate Nearer(s: Pool, n: Pool) {
    && Beginning(n) && Distance(n) < Distance(s)
    && n.queue == s.queue && n.cfg == s.cfg && n.ctl.shut == s.ctl.shut
    && (forall t :: t in s.queue.items ==> t in s.tasks && t in n.tasks && n.tasks[t] == s.tasks[t])
  }

  /** A step of worker w on its own, or on its own task. */
  ghost predicate OwnStep(s: Pool, n: Pool, w: nat) {
    && w < |s.workers| && n.ctl == s.ctl && n.queue == s.queue && n.cfg == s.cfg
    && |n.workers| == |s.workers| && n.workers == s.workers[w := n.workers[w]]
    && n.tasks.Keys == s.tasks.Keys
    && (forall t :: t in s.tasks && HeldTask(s.workers[w].pc) != Some(t) ==> n.tasks[t] == s.tasks[t])
    && WorkerGoesOn(n.workers[w], n.tasks, n.cfg.workerTimeout)
    && WorkerRank(n.workers[w], n.tasks) + 6 * |n.errs.items| < WorkerRank(s.workers[w], s.tasks) + 6 * |s.errs.items|
  }

  lemma OtherHoldsOther(s: Pool, w: nat, v: nat)
    requires HoldInv(s.workers, s.loc) && w < |s.workers| && v < |s.workers| && v != w
    ensures HeldTask(s.workers[v].pc).Some? ==> HeldTask(s.workers[v].pc) != HeldTask(s.workers[w].pc)
  {
    assert HeldTask(s.workers[v].pc).Some? ==> s.loc[HeldTask(s.workers[v].pc).value] == Held(v);
    assert HeldTask(s.workers[w].pc).Some? ==> s.loc[HeldTask(s.workers[w].pc).value] == Held(w);
  }

  lemma OwnStepIsNearer(s: Pool, l: Label, w: nat)
    requires Beginning(s) && Next(s, l).Some? && OwnStep(s, Next(s, l).value, w)
    ensures Nearer(s, Next(s, l).value)
  {
    var n := Next(s, l).value;
    NextKeepsInv(s, l);
    NextKeepsShutdown(s, l);
    StepKeepsAlive(s, l);
    OwnStepCounts(s, n, w);
    QueueIsNotHeld(s, w);
  }

  lemma QueueIsNotHeld(s: Pool, w: nat)
    requires QueueInv(s.queue.items, s.loc) && HoldInv(s.workers, s.loc) && s.loc.Keys == s.tasks.Keys && w < |s.workers|
    ensures forall t :: t in s.queue.items ==> t in s.tasks && HeldTask(s.workers[w].pc) != Some(t)
  {
    assert HeldTask(s.workers[w].pc).Some? ==> s.loc[HeldTask(s.workers[w].pc).value] == Held(w);
  }

  lemma OwnStepCounts(s: Pool, n: Pool, w: nat)
    requires HoldInv(s.workers, s.loc) && s.loc.Keys == s.tasks.Keys && NoneHangs(s) && OwnStep(s, n, w)
    ensures NoneHangs(n) && Distance(n) < Distance(s)
  {
    forall v: nat | v < |s.workers| && v != w
      ensures WorkerRank(s.workers[v], n.tasks) == WorkerRank(s.workers[v], s.tasks)
      ensures WorkerGoesOn(n.workers[v], n.tasks, n.cfg.workerTimeout)
    {
      OtherHoldsOther(s, w, v);
      assert WorkerGoesOn(s.workers[v], s.tasks, s.cfg.workerTimeout);
    }
    SumChanges(s.workers, w, n.workers[w], s.tasks, n.tasks);
  }

  function LocalLabel(k: Worker): WorkerLabel {
    match k.pc
    case CheckRun => TestState
    case MakeStop => CreateStop
    case Top => GoReceive
    case Got(_) => SetWorking
    case Metrics => MetricsDone
    case Panicking => MarkRecover
    case Releasing => Release
    case _ => TryRun
  }

  predicate GoesLocally(k: Worker) {
    || k.pc.CheckRun? || k.pc.MakeStop? || k.pc.Top? || k.pc.Got? || k.pc.Metrics? || k.pc.Panicking? || k.pc.Releasing?
    || (k.pc.NotRunning? && k.spawned > 0)
  }

  lemma LocalGoesOn(k: Worker, queue: Fifo<TaskId>, tasks: map<TaskId, T.Task>, workerTimeout: int)
    requires GoesLocally(k) && PcState(k.pc, k.state) && WorkerGoesOn(k, tasks, workerTimeout)
    requires k.stop.Some? ==> k.stop == Some(T.OPEN_EMPTY)
    ensures LocalNext(true, queue, k, LocalLabel(k)).Some?
    ensures var u := LocalNext(true, queue, k, LocalLabel(k)).value;
      WorkerRank(u, tasks) < WorkerRank(k, tasks) && WorkerGoesOn(u, tasks, workerTimeout)
  {
  }

  lemma LocalShape(s: Pool, w: nat, u: Worker)
    requires w < |s.workers| && GoesLocally(s.workers[w])
    requires LocalNext(s.ctl.ctxLive, s.queue, s.workers[w], LocalLabel(s.workers[w])) == Some(u)
    ensures Next(s, OfWorker(w, LocalLabel(s.workers[w]))) == Some(s.(workers := s.workers[w := u]))
  {
  }

  lemma LocalStep(s: Pool, w: nat)
    requires Beginning(s) && w < |s.workers| && GoesLocally(s.workers[w])
    ensures var l := OfWorker(w, LocalLabel(s.workers[w])); Next(s, l).Some? && Nearer(s, Next(s, l).value)
  {
    var k := s.workers[w];
    assert WorkerInv(w, k, s.errs.items, s.ctl.runner) && WorkerGoesOn(k, s.tasks, s.cfg.workerTimeout);
    if k.stop.Some? {
      OpenIsUnsignalled(s, w);
    }
    LocalGoesOn(k, s.queue, s.tasks, s.cfg.workerTimeout);
    LocalShape(s, w, LocalNext(true, s.queue, k, LocalLabel(k)).value);
    OwnStepIsNearer(s, OfWorker(w, LocalLabel(k)), w);
  }

  lemma ReportStep(s: Pool, w: nat)
    requires Beginning(s) && w < |s.workers| && (s.workers[w].failing > 0 || s.workers[w].pc.Reporting?)
    ensures var l := OfWorker(w, if s.workers[w].failing > 0 then ReportTaken else ReportPanic);
      Next(s, l).Some? && Nearer(s, Next(s, l).value)
  {
    RoomToReport(s, w);
    OwnStepIsNearer(s, OfWorker(w, if s.workers[w].failing > 0 then ReportTaken else ReportPanic), w);
  }

  lemma RoomToReport(s: Pool, w: nat)
    requires Good(s) && w < |s.workers| && Reporter(s.workers[w])
    ensures |s.errs.items| < s.cfg.concurrency
  {
    assert WorkerInv(w, s.workers[w], s.errs.items, s.ctl.runner);
    assert w !in s.errs.items;
    DistinctBelow(s.errs.items + [w], |s.workers|);
  }

  // ----- Finishing the task in hand -----

  predicate InHand(pc: RunPc) {
    pc.Entering? || pc.Inside?
  }

  /** The next step of the process call of this worker. */
  function HandLabel(s: Pool, w: nat): Label
    requires w < |s.workers| && InHand(s.workers[w].pc) && s.workers[w].pc.t in s.tasks
    requires s.workers[w].pc.Inside? ==> !s.tasks[s.workers[w].pc.t].pc.Unlocked?
  {
    var t := s.tasks[s.workers[w].pc.t];
    if s.workers[w].pc.Entering? then OfWorker(w, EnterTask)
    else if t.pc.Unlocking? then OfWorker(w, LeaveTask)
    else if AwaitsTimer(t) then OfTask(s.workers[w].pc.t, T.TimerFire)
    else OfWorker(w, InTask(NextOf(t, s.cfg.workerTimeout, t.wg.None? || (t.wg.value in s.wg && s.wg[t.wg.value] > 0))))
  }

  lemma HandFacts(s: Pool, w: nat)
    requires Good(s) && w < |s.workers| && InHand(s.workers[w].pc)
    requires WorkerGoesOn(s.workers[w], s.tasks, s.cfg.workerTimeout)
    ensures var t := s.workers[w].pc.t;
      && t in s.tasks && s.tasks[t].pc.Unlocked? == s.workers[w].pc.Entering?
      && (s.tasks[t].wg.Some? ==> s.tasks[t].wg.value in s.wg)
  {
    var t := s.workers[w].pc.t;
    assert HeldTask(s.workers[w].pc) == Some(t) && s.loc[t] == Held(w);
    assert PlaceInv(s.tasks[t], s.loc[t], s.workers);
    assert OwnerInv(s, t);
  }

  /** The call goes on; the worker stays with its task until process has returned. */
  ghost predicate HandStep(s: Pool, n: Pool, w: nat) {
    && OwnStep(s, n, w) && n.errs == s.errs && (n.workers[w].pc.Inside? || n.workers[w].pc.After?)
    && n.workers[w] == s.workers[w].(pc := n.workers[w].pc)
  }

  lemma EnterStep(s: Pool, w: nat)
    requires w < |s.workers| && s.workers[w].pc.Entering? && s.workers[w].pc.t in s.tasks
    requires s.tasks[s.workers[w].pc.t].pc.Unlocked? && WorkerGoesOn(s.workers[w], s.tasks, s.cfg.workerTimeout)
    ensures Next(s, OfWorker(w, EnterTask)).Some? && HandStep(s, Next(s, OfWorker(w, EnterTask)).value, w)
  {
  }

  lemma TimerStep(s: Pool, w: nat)
    requires w < |s.workers| && s.workers[w].pc.Inside? && s.workers[w].pc.t in s.tasks
    requires AwaitsTimer(s.tasks[s.workers[w].pc.t])
    ensures var l := OfTask(s.workers[w].pc.t, T.TimerFire); Next(s, l).Some? && HandStep(s, Next(s, l).value, w)
  {
    TimerGoesOn(s.tasks[s.workers[w].pc.t], s.cfg.workerTimeout);
  }

  lemma CallShape(s: Pool, w: nat, u: T.Task)
    requires w < |s.workers| && s.workers[w].pc.Inside? && s.workers[w].pc.t in s.tasks
    requires var t := s.tasks[s.workers[w].pc.t];
      && !t.pc.Unlocked? && !t.pc.Unlocking? && !AwaitsTimer(t) && (t.wg.Some? ==> t.wg.value in s.wg)
      && T.ProcessStep(t, NextOf(t, s.cfg.workerTimeout, t.wg.None? || s.wg[t.wg.value] > 0)) == Some(u)
    ensures var next := Next(s, HandLabel(s, w));
      next.Some? && next.value == s.(tasks := s.tasks[s.workers[w].pc.t := u], wg := next.value.wg)
  {
  }

  lemma CallStep(s: Pool, w: nat)
    requires w < |s.workers| && s.workers[w].pc.Inside? && s.workers[w].pc.t in s.tasks
    requires WorkerGoesOn(s.workers[w], s.tasks, s.cfg.workerTimeout)
    requires var t := s.tasks[s.workers[w].pc.t];
      !t.pc.Unlocked? && !t.pc.Unlocking? && !AwaitsTimer(t) && (t.wg.Some? ==> t.wg.value in s.wg)
    ensures Next(s, HandLabel(s, w)).Some? && HandStep(s, Next(s, HandLabel(s, w)).value, w)
  {
    var t := s.tasks[s.workers[w].pc.t];
    var ok := t.wg.None? || s.wg[t.wg.value] > 0;
    TaskGoesOn(t, s.cfg.workerTimeout, ok);
    CallShape(s, w, T.ProcessStep(t, NextOf(t, s.cfg.workerTimeout, ok)).value);
  }

  lemma LeaveStep(s: Pool, w: nat)
    requires w < |s.workers| && s.workers[w].pc.Inside? && s.workers[w].pc.t in s.tasks
    requires s.tasks[s.workers[w].pc.t].pc.Unlocking?
    ensures Next(s, OfWorker(w, LeaveTask)).Some? && HandStep(s, Next(s, OfWorker(w, LeaveTask)).value, w)
  {
  }

  lemma HandGoesOn(s: Pool, w: nat) returns (l: Label)
    requires Good(s) && w < |s.workers| && InHand(s.workers[w].pc)
    requires WorkerGoesOn(s.workers[w], s.tasks, s.cfg.workerTimeout)
    ensures !OutsideStop(l) && Next(s, l).Some? && HandStep(s, Next(s, l).value, w)
  {
    HandFacts(s, w);
    var t := s.tasks[s.workers[w].pc.t];
    l := HandLabel(s, w);
    if s.workers[w].pc.Entering? {
      EnterStep(s, w);
    } else if t.pc.Unlocking? {
      LeaveStep(s, w);
    } else if AwaitsTimer(t) {
      TimerStep(s, w);
    } else {
      CallStep(s, w);
    }
  }

  lemma ClearStep(s: Pool, w: nat)
    requires w < |s.workers| && s.workers[w].pc.After?
    ensures Next(s, OfWorker(w, ClearTask)).Some?
    ensures var n := Next(s, OfWorker(w, ClearTask)).value;
      && OwnStep(s, n, w) && n.tasks == s.tasks
      && n.workers[w] == s.workers[w].(task := None, state := Idle, pc := Metrics)
  {
  }

  /** A worker whose error is unread, or whose restart is under way, waits for RunBG. */
  lemma RunnerStep(s: Pool, w: nat)
    requires Beginning(s) && w < |s.workers| && s.workers[w].pc.NotRunning?
    requires s.workers[w].spawned == 0 && s.workers[w].failing == 0
    ensures var l := Runner(if s.ctl.runner.Restarting? then Restart else RecvErr);
      Next(s, l).Some? && Nearer(s, Next(s, l).value)
  {
    assert AliveWorker(w, s.workers[w], s.errs.items, s.ctl.runner);
    var l := Runner(if s.ctl.runner.Restarting? then Restart else RecvErr);
    RunnerStepCounts(s);
    QueueIsKnown(s);
    NextKeepsInv(s, l);
    NextKeepsShutdown(s, l);
    StepKeepsAlive(s, l);
  }

  lemma RunnerStepCounts(s: Pool)
    requires ErrsInv(s.errs.items, |s.workers|, s.ctl.runner) && NoneHangs(s)
    requires s.ctl.runner.Restarting? || (s.ctl.runner.Selecting? && s.errs.items != [])
    ensures var next := RunnerNext(s, if s.ctl.runner.Restarting? then Restart else RecvErr);
      && next.Some? && NoneHangs(next.value) && Distance(next.value) < Distance(s)
      && next.value.queue == s.queue && next.value.cfg == s.cfg
      && next.value.ctl == s.ctl.(runner := next.value.ctl.runner) && next.value.tasks == s.tasks
      && (next.value.ctl.runner.Selecting? || next.value.ctl.runner.Restarting?)
  {
    if s.ctl.runner.Restarting? {
      var v := s.ctl.runner.w;
      var k := s.workers[v].(spawned := s.workers[v].spawned + 1);
      SumChanges(s.workers, v, k, s.tasks, s.tasks);
      assert WorkerGoesOn(s.workers[v], s.tasks, s.cfg.workerTimeout);
    }
  }

  lemma Progress(s: Pool, w: nat) returns (l: Label)
    requires Beginning(s) && w < |s.workers| && !s.workers[w].pc.Receive?
    ensures !OutsideStop(l) && Next(s, l).Some? && Nearer(s, Next(s, l).value)
  {
    var k := s.workers[w];
    assert WorkerInv(w, k, s.errs.items, s.ctl.runner) && AliveWorker(w, k, s.errs.items, s.ctl.runner);
    assert WorkerGoesOn(k, s.tasks, s.cfg.workerTimeout);
    if GoesLocally(k) {
      LocalStep(s, w);
      l := OfWorker(w, LocalLabel(k));
    } else if k.failing > 0 || k.pc.Reporting? {
      ReportStep(s, w);
      l := OfWorker(w, if k.failing > 0 then ReportTaken else ReportPanic);
    } else if k.pc.NotRunning? {
      RunnerStep(s, w);
      l := Runner(if s.ctl.runner.Restarting? then Restart else RecvErr);
    } else if k.pc.After? {
      ClearStep(s, w);
      l := OfWorker(w, ClearTask);
      OwnStepIsNearer(s, l, w);
    } else {
      l := HandGoesOn(s, w);
      OwnStepIsNearer(s, l, w);
    }
  }

  /** All workers come to wait, and nothing has been dequeued. */
  lemma {:induction false} Settle(start: Pool, s: Pool) returns (n: Pool)
    requires ReachesAlone(start, s) && Beginning(s)
    ensures ReachesAlone(start, n) && Beginning(n) && AllReceiving(n)
    ensures n.queue == s.queue && n.cfg == s.cfg && n.ctl.shut == s.ctl.shut
    ensures forall t :: t in s.queue.items ==> t in s.tasks && t in n.tasks && n.tasks[t] == s.tasks[t]
    decreases Distance(s)
  {
    if w: nat :| w < |s.workers| && !s.workers[w].pc.Receive? {
      var l := Progress(s, w);
      StepAlone(start, s, l);
      n := Settle(start, Next(s, l).value);
    } else {
      n := s;
      QueueIsKnown(s);
    }
  }

  lemma QueueIsKnown(s: Pool)
    requires QueueInv(s.queue.items, s.loc) && s.loc.Keys == s.tasks.Keys
    ensures forall t :: t in s.queue.items ==> t in s.tasks
  {
  }
}
