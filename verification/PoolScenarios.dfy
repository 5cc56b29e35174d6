/** Runs that show the failing cases of modules PoolStop and PoolHard on one worker with one short task. */
module PoolScenarios {
  import opened Options
  import T = Tasks
  import opened PoolMachine
  import opened PoolTheorems
  import opened PoolRuns
  import opened PoolLight
  import opened PoolStop
  import opened PoolInvariant
  import opened PoolHard

  // ----- SOFT drains a task and tells nobody -----

  const DRAINING := LOADED.(
    ctl := LOADED.ctl.(lock := StopLock, state := ShuttingDown, shut := DrainQueue(Soft)), queue := Fifo([0], true))

  const DRAINED := DRAINING.(
    ctl := DRAINING.ctl.(shut := TaskCheck(Soft, 0, ResumeDrain)), queue := Fifo([], true), loc := map[0 := Discarded])

  lemma ReachDrained()
    ensures Reaches(START, DRAINED)
  {
    ReachLoaded();
    var s1 := LOADED.(ctl := LOADED.ctl.(lock := StopLock, state := ShuttingDown, shut := CloseQueue(Soft)));
    Step(START, LOADED, Shut(CallStop(Soft)), s1);
    Step(START, s1, Shut(StepQueue), DRAINING);
    Step(START, DRAINING, Shut(StepQueue), DRAINED);
  }

  /** Stop(SOFT) takes an accepted task out of the queue, which then never gets a signal or an error. */
  lemma SoftForgetsTask(labels: seq<Label>)
    requires Run(DRAINED, labels).Some?
    ensures Reachable(DRAINED) && Accepted(DRAINED, 0) && DRAINED.loc[0] == Discarded
    ensures var n := Run(DRAINED, labels).value;
      0 in n.tasks && n.tasks[0].life.signals == 0 && n.tasks[0].err == T.NoErr
  {
    ReachDrained();
    FromStart(DRAINED);
    DrainedIsNeverSignalled(DRAINED, labels, 0);
  }

  // ----- HARD is cut short -----

  const STARTED := SHORT_TASK.(
    wg := Some(0), state := T.InProcess, pc := T.ShortRun, life := T.Life(1, T.Pending, 1, 0, 0, 0))

  const BUSY_WORKER := READY_WORKER.(state := Working, pc := Inside(0), task := Some(0))

  /** The worker is inside the handler of the short task. */
  const BUSY := LOADED.(
    queue := Fifo([], false), workers := [BUSY_WORKER], tasks := map[0 := STARTED], loc := map[0 := Held(0)])

  const TAKEN := LOADED.(
    queue := Fifo([], false), workers := [READY_WORKER.(pc := Got(0))], loc := map[0 := Held(0)])

  lemma ReachTaken()
    ensures Reaches(START, TAKEN)
  {
    ReachLoaded();
    Step(START, LOADED, OfWorker(0, TakeTask), TAKEN);
  }

  lemma ReachEntered()
    ensures Reaches(START, BUSY.(tasks := map[0 := LOADED.tasks[0].(pc := T.Locked)]))
  {
    ReachTaken();
    var k := READY_WORKER.(state := Working, task := Some(0), pc := Entering(0));
    Step(START, TAKEN, OfWorker(0, SetWorking), TAKEN.(workers := [k]));
    Step(START, TAKEN.(workers := [k]), OfWorker(0, EnterTask), BUSY.(tasks := map[0 := LOADED.tasks[0].(pc := T.Locked)]));
  }

  // ----- HARD misses a task that has just been taken -----

  const TAKEN_WORKER := READY_WORKER.(pc := Got(0))

  function Missing(shut: ShutPc, k: Worker): Pool {
    TAKEN.(ctl := TAKEN.ctl.(lock := StopLock, state := ShuttingDown, shut := shut), queue := Fifo([], true), workers := [k])
  }

  lemma ReachMissedChosen()
    ensures Reaches(START, Missing(TestStop(Hard, REST, 0), TAKEN_WORKER))
  {
    ReachTaken();
    var s0 := TAKEN.(ctl := TAKEN.ctl.(lock := StopLock, state := ShuttingDown, shut := CloseQueue(Hard)));
    Step(START, TAKEN, Shut(CallStop(Hard)), s0);
    var s1 := Missing(DrainQueue(Hard), TAKEN_WORKER);
    Step(START, s0, Shut(StepQueue), s1);
    ReachMissedVisit(s1);
  }

  lemma ReachMissedVisit(s1: Pool)
    requires s1 == Missing(DrainQueue(Hard), TAKEN_WORKER) && Reaches(START, s1)
    ensures Reaches(START, Missing(TestStop(Hard, REST, 0), TAKEN_WORKER))
  {
    assert AllWorkers(s1) == ALL;
    var s2 := Missing(PickWorker(Hard, ALL), TAKEN_WORKER);
    Step(START, s1, Shut(StepQueue), s2);
    var s3 := Missing(TestIdle(Hard, REST, 0), TAKEN_WORKER);
    Step(START, s2, Shut(Choose(0)), s3);
    Step(START, s3, Shut(StepWorker), Missing(TestStop(Hard, REST, 0), TAKEN_WORKER));
  }

  const MISSED_WORKER := TAKEN_WORKER.(stop := Some(T.Chan(1, true)))

  lemma ReachMissed()
    ensures Reaches(START, Missing(PickWorker(Hard, REST), MISSED_WORKER))
  {
    ReachMissedChosen();
    var s1 := Missing(WorkerSend(Hard, REST, 0), TAKEN_WORKER);
    Step(START, Missing(TestStop(Hard, REST, 0), TAKEN_WORKER), Shut(StepWorker), s1);
    var s2 := Missing(WorkerClose(Hard, REST, 0), TAKEN_WORKER.(stop := Some(T.Chan(1, false))));
    Step(START, s1, Shut(StepWorker), s2);
    var s3 := Missing(WorkerTask(Hard, REST, 0), MISSED_WORKER);
    Step(START, s2, Shut(StepWorker), s3);
    Step(START, s3, Shut(StepWorker), Missing(PickWorker(Hard, REST), MISSED_WORKER));
  }

  /** Begun after the shutdown has been to its worker. */
  function BegunLate(t: T.Task): Pool {
    Missing(PickWorker(Hard, REST), MISSED_WORKER.(state := Working, pc := Inside(0), task := Some(0))).(tasks := map[0 := t])
  }

  lemma ReachBegunLate()
    ensures Reaches(START, BegunLate(LOADED.tasks[0].(pc := T.Locked)))
  {
    ReachMissed();
    var k := MISSED_WORKER.(state := Working, task := Some(0), pc := Entering(0));
    var s0 := Missing(PickWorker(Hard, REST), MISSED_WORKER);
    Step(START, s0, OfWorker(0, SetWorking), s0.(workers := [k]));
    Step(START, s0.(workers := [k]), OfWorker(0, EnterTask), BegunLate(LOADED.tasks[0].(pc := T.Locked)));
  }

  lemma ReachStartedLate()
    ensures Reaches(START, BegunLate(STARTED))
  {
    ReachBegunLate();
    var entered := LOADED.tasks[0].(pc := T.Locked);
    var begun := entered.(state := T.InProcess, pc := T.Begin);
    StepLate(entered, T.Check, begun);
    StepLate(begun, T.Start, STARTED);
  }

  lemma StepLate(t: T.Task, p: T.ProcessLabel, u: T.Task)
    requires Reaches(START, BegunLate(t)) && (p.Check? || p.Start?) && T.ProcessStep(t, p) == Some(u)
    ensures Reaches(START, BegunLate(u))
  {
    Step(START, BegunLate(t), OfWorker(0, InTask(p)), BegunLate(u));
  }

  /** Stop(HARD) has been to every worker, and then a handler starts whose task nobody stops. */
  lemma HardMissesTakenTask() returns (n: Pool)
    ensures Reachable(n) && n.ctl.state.ShuttingDown? && ShutNext(n, ChosenAll).Some?
    ensures 0 in n.tasks && n.tasks[0].pc.ShortRun? && n.tasks[0].life.starts == 1 && n.tasks[0].stop.calls == 0
  {
    ReachStartedLate();
    n := BegunLate(STARTED);
    FromStart(n);
  }

  /** A step that changes the task alone. */
  lemma StepTaskTo(t: T.Task, l: Label, u: T.Task)
    requires Reaches(START, BUSY.(tasks := map[0 := t])) && t.pc != T.Unlocked
    requires || (l.OfWorker? && l.w == 0 && l.wl.InTask? && (l.wl.p.Check? || l.wl.p.Start?) && T.ProcessStep(t, l.wl.p) == Some(u))
             || (l.OfTask? && l.t == 0 && T.OutsideStep(t, l.o) == Some(u))
    ensures Reaches(START, BUSY.(tasks := map[0 := u]))
  {
    var n, m := BUSY.(tasks := map[0 := t]), BUSY.(tasks := map[0 := u]);
    assert n.tasks[0 := u] == m.tasks;
    Step(START, n, l, m);
  }

  lemma ReachBusy()
    ensures Reaches(START, BUSY)
  {
    ReachEntered();
    var entered := LOADED.tasks[0].(pc := T.Locked);
    var begun := entered.(state := T.InProcess, pc := T.Begin);
    StepTaskTo(entered, OfWorker(0, InTask(T.Check)), begun);
    StepTaskTo(begun, OfWorker(0, InTask(T.Start)), STARTED);
  }

  lemma BusyIsReachable()
    ensures Reachable(BUSY)
  {
    ReachBusy();
    FromStart(BUSY);
  }

  lemma BusyEnds()
    ensures BUSY.ctl.lock.Free? && BUSY.ctl.state.BgRunning? && !BUSY.ctl.runner.Locking?
    ensures NoneWouldHang(BUSY) && !NothingToDo(BUSY) && BUSY.cfg.shutdownTimeout == 0 && BUSY.cfg.workerTimeout == 0
  {
    assert HeldTask(BUSY.workers[0].pc) == Some(0);
  }

  /** Stop(HARD) can return with no timeout while a worker is not terminated although nobody has stopped the
      task: the worker finishes it between the two reads of its current task, and the call on nil panics. */
  lemma HardMeetsFinishedTask() returns (n: Pool, w: nat)
    ensures Reachable(BUSY) && ShutNext(BUSY, CallStop(Hard)).Some?
    ensures ReachesAlone(ShutNext(BUSY, CallStop(Hard)).value, n)
    ensures n.cfg.shutdownTimeout == 0 && n.ctl.outcome == Some(Aborted) && n.ctl.lock.Free?
    ensures w < |n.workers| && n.workers[w].pc.Metrics?
  {
    BusyIsReachable();
    BusyEnds();
    n, w := HardLosesRace(BUSY);
  }

  const STOPPED_TASK := STARTED.(stop := T.StopSide(T.Chan(1, true), 0, 0, 1))

  /** Somebody outside has called Stop on the running short task, which does not listen. */
  const STOPPED := BUSY.(tasks := map[0 := STOPPED_TASK])

  lemma ReachStopped()
    ensures Reaches(START, STOPPED)
  {
    ReachBusy();
    var t1 := STARTED.(stop := T.StopSide(T.OPEN_EMPTY, 1, 0, 1));
    StepTaskTo(STARTED, OfTask(0, T.StopCheck), t1);
    var t2 := STARTED.(stop := T.StopSide(T.Chan(1, false), 0, 1, 1));
    StepTaskTo(t1, OfTask(0, T.StopSend), t2);
    StepTaskTo(t2, OfTask(0, T.StopClose), STOPPED_TASK);
  }

  lemma StoppedIsReachable()
    ensures Reachable(STOPPED)
  {
    ReachStopped();
    FromStart(STOPPED);
  }

  const ALL: set<WorkerId> := {0}
  const REST: set<WorkerId> := ALL - {0}

  const STOPPING := STOPPED.(
    ctl := STOPPED.ctl.(lock := StopLock, state := ShuttingDown, shut := CloseQueue(Hard)))

  function Hardly(shut: ShutPc, k: Worker, t: T.Task): Pool {
    STOPPING.(ctl := STOPPING.ctl.(shut := shut), queue := Fifo([], true), workers := [k], tasks := map[0 := t])
  }

  lemma ReachChosen()
    ensures Reaches(STOPPING, Hardly(WorkerSend(Hard, REST, 0), BUSY_WORKER, STOPPED_TASK))
  {
    assert Run(STOPPING, []) == Some(STOPPING);
    var s1 := Hardly(DrainQueue(Hard), BUSY_WORKER, STOPPED_TASK);
    Step(STOPPING, STOPPING, Shut(StepQueue), s1);
    assert AllWorkers(s1) == ALL;
    var s2 := Hardly(PickWorker(Hard, ALL), BUSY_WORKER, STOPPED_TASK);
    Step(STOPPING, s1, Shut(StepQueue), s2);
    Step(STOPPING, s2, Shut(Choose(0)), Hardly(TestStop(Hard, REST, 0), BUSY_WORKER, STOPPED_TASK));
    Step(STOPPING, Hardly(TestStop(Hard, REST, 0), BUSY_WORKER, STOPPED_TASK), Shut(StepWorker),
         Hardly(WorkerSend(Hard, REST, 0), BUSY_WORKER, STOPPED_TASK));
  }

  const TOLD_WORKER := BUSY_WORKER.(stop := Some(T.Chan(1, true)))

  lemma ReachTaskCheck()
    ensures Reaches(STOPPING, Hardly(TaskCheck(Hard, 0, ResumeWorkers(REST)), TOLD_WORKER, STOPPED_TASK))
  {
    ReachChosen();
    var s1 := Hardly(WorkerClose(Hard, REST, 0), BUSY_WORKER.(stop := Some(T.Chan(1, false))), STOPPED_TASK);
    Step(STOPPING, Hardly(WorkerSend(Hard, REST, 0), BUSY_WORKER, STOPPED_TASK), Shut(StepWorker), s1);
    var s2 := Hardly(WorkerTask(Hard, REST, 0), TOLD_WORKER, STOPPED_TASK);
    Step(STOPPING, s1, Shut(StepWorker), s2);
    var s3 := Hardly(WorkerLoad(Hard, REST, 0), TOLD_WORKER, STOPPED_TASK);
    Step(STOPPING, s2, Shut(StepWorker), s3);
    Step(STOPPING, s3, Shut(StepWorker), Hardly(TaskCheck(Hard, 0, ResumeWorkers(REST)), TOLD_WORKER, STOPPED_TASK));
  }

  const CUT_SHORT := Hardly(Finishing(Aborted), TOLD_WORKER, STOPPED_TASK.(stop := T.StopSide(T.Chan(1, true), 0, 0, 2)))

  lemma ReachCutShort()
    ensures Reaches(STOPPING, CUT_SHORT)
  {
    ReachTaskCheck();
    var s1 := Hardly(TaskSend(Hard, 0, ResumeWorkers(REST)), TOLD_WORKER,
                     STOPPED_TASK.(stop := T.StopSide(T.Chan(1, true), 1, 0, 2)));
    Step(STOPPING, Hardly(TaskCheck(Hard, 0, ResumeWorkers(REST)), TOLD_WORKER, STOPPED_TASK), Shut(StepTask), s1);
    Step(STOPPING, s1, Shut(StepTask), CUT_SHORT);
  }

  lemma ReachableOn(s: Pool, n: Pool)
    requires Reachable(s) && Reaches(s, n)
    ensures Reachable(n)
  {
    var start: Pool, labels: seq<Label> :| Init(start) && Run(start, labels) == Some(s);
    ReachesOn(start, s, n);
  }

  lemma HardStopBegins()
    ensures ShutNext(STOPPED, CallStop(Hard)) == Some(STOPPING)
  {
  }

  lemma CutShortIsBusy()
    ensures CUT_SHORT.ctl.shut == Finishing(Aborted) && CUT_SHORT.ctl.lock.StopLock? && CUT_SHORT.ctl.stopCh == T.OPEN_EMPTY
    ensures CUT_SHORT.cfg.shutdownTimeout == 0 && CUT_SHORT.workers == [TOLD_WORKER]
    ensures 0 in CUT_SHORT.tasks && CUT_SHORT.tasks[0].pc.ShortRun?
  {
  }

  /** Stop(HARD) can return with no timeout while a worker still works and its handler still runs: a Stop
      call from outside has closed the task's channel, and the pool's own send on it panics. */
  lemma HardStopLeavesWorker() returns (n: Pool)
    ensures Reachable(STOPPED) && ShutNext(STOPPED, CallStop(Hard)).Some?
    ensures Reaches(ShutNext(STOPPED, CallStop(Hard)).value, n)
    ensures n.cfg.shutdownTimeout == 0 && n.ctl.outcome == Some(Aborted) && n.ctl.lock.Free? && n.ctl.state.PoolShutdown?
    ensures |n.workers| == 1 && n.workers[0].state.Working? && 0 in n.tasks && n.tasks[0].pc.ShortRun?
  {
    StoppedIsReachable();
    HardStopBegins();
    StoppingIsReachable();
    ReachCutShort();
    CutShortIsBusy();
    ReachableOn(STOPPING, CUT_SHORT);
    ReachableIsGood(CUT_SHORT);
    AloneFromItself(CUT_SHORT);
    n := StopReturns(CUT_SHORT, CUT_SHORT);
    AloneIsReached(CUT_SHORT, n);
    ReachesOn(STOPPING, CUT_SHORT, n);
  }

  lemma StoppingIsReachable()
    ensures Reachable(STOPPING)
  {
    StoppedIsReachable();
    HardStopBegins();
    AloneFromItself(STOPPED);
    StepAlone(STOPPED, STOPPED, Shut(CallStop(Hard)));
    AloneIsReached(STOPPED, STOPPING);
    ReachableOn(STOPPED, STOPPING);
  }
}
