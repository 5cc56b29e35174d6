/**
When HARD is cut short.  Worker.Stop reads the worker's current task twice, and
the worker may finish it in between; so HARD is safe exactly when there is no
task it could find.  With that, quiescence is stated by what the caller knows.
*/
module PoolHard {
  import opened Options
  import T = Tasks
  import opened PoolMachine
  import opened PoolInvariant
  import opened PoolShutSteps
  import opened PoolShutdown
  import opened PoolTheorems
  import opened PoolStop
  import opened PoolAlive
  import opened PoolAborts
  import opened PoolSettle
  import opened PoolLightExact
  import opened PoolRuns

  ghost predicate NoneHeld(workers: seq<Worker>) {
    forall w: nat :: w < |workers| ==> HeldTask(workers[w].pc).None?
  }

  /** No worker has a task, none is queued, and no AddTask call is past its state test. */
  ghost predicate NothingToDo(s: Pool) {
    s.queue.items == [] && NobodyAdding(s.clients) && NoneHeld(s.workers)
  }

  // ----- Without tasks nothing is cut short -----

  predicate StopsTask(shut: ShutPc) {
    shut.TaskCheck? || shut.TaskSend? || shut.TaskClose? || shut.WorkerLoad?
  }

  ghost predicate Vacant(s: Pool) {
    Emptied(s) && NoneHeld(s.workers) && !StopsTask(s.ctl.shut)
  }

  lemma VacantWorkerStep(s: Pool, w: WorkerId, l: WorkerLabel)
    requires Vacant(s) && WorkerNext(s, w, l).Some?
    ensures NoneHeld(WorkerNext(s, w, l).value.workers)
  {
  }

  lemma VacantQueueStep(s: Pool)
    requires Vacant(s) && QueueNext(s).Some?
    ensures var n := QueueNext(s).value; n.workers == s.workers && !StopsTask(n.ctl.shut)
  {
  }

  lemma VacantSendStep(s: Pool)
    requires s.ctl.shut.WorkerSend? && WorkerSendNext(s).Some?
    ensures !StopsTask(WorkerSendNext(s).value.ctl.shut)
  {
  }

  lemma VacantCloseStep(s: Pool)
    requires s.ctl.shut.WorkerClose? && WorkerCloseNext(s).Some?
    ensures !StopsTask(WorkerCloseNext(s).value.ctl.shut)
  {
  }

  lemma VacantStateStep(s: Pool)
    requires (s.ctl.shut.TestIdle? || s.ctl.shut.TestStop?) && WorkerTestNext(s).Some?
    ensures !StopsTask(WorkerTestNext(s).value.ctl.shut)
  {
  }

  lemma VacantTestStep(s: Pool)
    requires s.ctl.shut.WorkerTask? && s.ctl.shut.w < |s.workers| && s.workers[s.ctl.shut.w].task.None?
    ensures WorkerTaskNext(s).Some? && !StopsTask(WorkerTaskNext(s).value.ctl.shut)
  {
  }

  lemma VacantStopStep(s: Pool)
    requires Vacant(s) && WorkersInv(s.workers, s.errs.items, s.ctl.runner) && WorkerStopNext(s).Some?
    ensures var n := WorkerStopNext(s).value; NoneHeld(n.workers) && !StopsTask(n.ctl.shut)
  {
    var w := s.ctl.shut.w;
    WorkerStopChanges(s);
    if s.ctl.shut.WorkerTask? {
      assert WorkerInv(w, s.workers[w], s.errs.items, s.ctl.runner);
      VacantTestStep(s);
    } else if s.ctl.shut.TestIdle? || s.ctl.shut.TestStop? {
      VacantStateStep(s);
    } else if s.ctl.shut.WorkerSend? {
      VacantSendStep(s);
    } else {
      VacantCloseStep(s);
    }
  }

  /** Beginning a stop, its polling and its end. */
  lemma VacantPlainStep(s: Pool, l: ShutLabel)
    requires (l.CallStop? || l.PollTimeout? || l.ChosenAll? || l.PollWorker?) && ShutNext(s, l).Some?
    ensures var n := ShutNext(s, l).value; n.workers == s.workers && !StopsTask(n.ctl.shut)
  {
  }

  lemma VacantShutStep(s: Pool, l: ShutLabel)
    requires Vacant(s) && WorkersInv(s.workers, s.errs.items, s.ctl.runner) && ShutNext(s, l).Some?
    ensures var n := ShutNext(s, l).value; NoneHeld(n.workers) && !StopsTask(n.ctl.shut)
  {
    if Ending(l) {
      EndingIsLate(s, l);
      EndingKeepsWorkers(s, l);
    } else {
      match l
      case StepTask =>
      case StepQueue => VacantQueueStep(s);
      case StepWorker => VacantStopStep(s);
      case Choose(w) => VacantChoice(s, w);
      case _ => VacantPlainStep(s, l);
    }
  }

  lemma VacantChoice(s: Pool, w: WorkerId)
    requires ChooseNext(s, w).Some?
    ensures var n := ChooseNext(s, w).value; n.workers == s.workers && !StopsTask(n.ctl.shut)
  {
  }

  lemma EndingKeepsWorkers(s: Pool, l: ShutLabel)
    requires Ending(l) && ShutNext(s, l).Some?
    ensures ShutNext(s, l).value.workers == s.workers
  {
    match l
    case PollEnd => PollEndShape(s);
    case StepErrs => ErrsShape(s);
    case Finish => FinishShape(s);
    case StepSignal => SignalShape(s);
  }

  lemma VacantRunnerStep(s: Pool, l: RunnerLabel)
    requires Vacant(s) && RunnerNext(s, l).Some?
    ensures var n := RunnerNext(s, l).value; NoneHeld(n.workers) && !StopsTask(n.ctl.shut)
  {
  }

  lemma VacantPartsStep(s: Pool, l: Label)
    requires Vacant(s) && WorkersInv(s.workers, s.errs.items, s.ctl.runner) && Next(s, l).Some?
    ensures var n := Next(s, l).value; NoneHeld(n.workers) && !StopsTask(n.ctl.shut)
  {
    match l
    case Runner(rl) => VacantRunnerStep(s, rl);
    case Shut(sl) => VacantShutStep(s, sl);
    case OfWorker(w, wl) =>
      VacantWorkerStep(s, w, wl);
      WorkerKeepsLifeCycle(s, w, wl);
    case _ =>
  }

  lemma VacantStep(s: Pool, l: Label)
    requires Good(s) && Vacant(s) && Next(s, l).Some?
    ensures Vacant(Next(s, l).value)
  {
    EmptyStep(s, l);
    VacantPartsStep(s, l);
  }

  lemma VacantKeepsUnaborted(s: Pool, l: Label)
    requires Good(s) && Vacant(s) && Unaborted(s.ctl) && Next(s, l).Some?
    ensures Unaborted(Next(s, l).value.ctl)
  {
    if l.Shut? && Aborting(Next(s, l).value.ctl) {
      AbortStep(s, l.sl);
    }
    StepKeepsUnaborted(s, l);
  }

  lemma {:induction false} VacantRun(s: Pool, labels: seq<Label>)
    requires Good(s) && Vacant(s) && Unaborted(s.ctl) && Run(s, labels).Some?
    ensures Unaborted(Run(s, labels).value.ctl)
    decreases |labels|
  {
    if labels != [] {
      NextKeepsInv(s, labels[0]);
      NextKeepsShutdown(s, labels[0]);
      VacantStep(s, labels[0]);
      VacantKeepsUnaborted(s, labels[0]);
      VacantRun(Next(s, labels[0]).value, labels[1..]);
    }
  }

  /** With nothing to do at its beginning no shutdown is cut short, whatever its mode, whoever begins it,
      and whatever happens afterwards, Stop calls on tasks included. */
  lemma NothingToDoNeverAborts(s: Pool, l: Label, labels: seq<Label>)
    requires Reachable(s) && s.ctl.state.BgRunning? && NothingToDo(s)
    requires BeginsStop(l) && Next(s, l).Some? && Run(Next(s, l).value, labels).Some?
    ensures Unaborted(Run(Next(s, l).value, labels).value.ctl)
  {
    ReachableIsGood(s);
    BgRunningIsUnaborted(s);
    NextKeepsInv(s, l);
    NextKeepsShutdown(s, l);
    VacantRun(Next(s, l).value, labels);
  }

  // ----- A run in which the race is lost -----

  /** Taking one step of such a run. */
  lemma Go(start: Pool, s: Pool, l: Label)
    requires ReachesAlone(start, s) && Good(s) && !OutsideStop(l) && Next(s, l).Some?
    ensures ReachesAlone(start, Next(s, l).value) && Good(Next(s, l).value)
  {
    StepAlone(start, s, l);
    NextKeepsInv(s, l);
    NextKeepsShutdown(s, l);
  }

  /** Only the shutdown's position differs, and the queue is empty. */
  ghost predicate Drained(s: Pool, n: Pool, shut: ShutPc) {
    && n.workers == s.workers && n.tasks == s.tasks && n.cfg == s.cfg && n.queue.items == []
    && n.ctl == s.ctl.(shut := shut)
  }

  lemma DrainOne(start: Pool, s: Pool) returns (n: Pool)
    requires ReachesAlone(start, s) && Good(s) && s.ctl.shut == DrainQueue(Hard) && s.queue.items != []
    ensures ReachesAlone(start, n) && Good(n) && n.ctl == s.ctl && n.workers == s.workers && n.tasks == s.tasks
    ensures n.cfg == s.cfg && n.queue.items == s.queue.items[1..]
  {
    Go(start, s, Shut(StepQueue));
    var m := Next(s, Shut(StepQueue)).value;
    DrainedIsNotStoppable(m);
    Go(start, m, Shut(StepTask));
    n := Next(m, Shut(StepTask)).value;
  }

  lemma {:induction false} DrainAll(start: Pool, s: Pool) returns (n: Pool)
    requires ReachesAlone(start, s) && Good(s) && s.ctl.shut == DrainQueue(Hard)
    ensures ReachesAlone(start, n) && Good(n) && Drained(s, n, PickWorker(Hard, AllWorkers(s)))
    decreases |s.queue.items|
  {
    if s.queue.items == [] {
      Go(start, s, Shut(StepQueue));
      n := Next(s, Shut(StepQueue)).value;
    } else {
      var m := DrainOne(start, s);
      n := DrainAll(start, m);
    }
  }

  /** A worker that shutdown finds working is told to stop, and its task is seen. */
  lemma SeeTask(start: Pool, s: Pool, w: nat) returns (n: Pool)
    requires ReachesAlone(start, s) && Good(s) && w < |s.workers|
    requires s.ctl.shut == PickWorker(Hard, AllWorkers(s))
    requires s.workers[w].state.Working? && s.workers[w].task.Some? && s.workers[w].stop == Some(T.OPEN_EMPTY)
    ensures ReachesAlone(start, n) && Good(n) && n.tasks == s.tasks && n.cfg == s.cfg
    ensures n.ctl == s.ctl.(shut := WorkerLoad(Hard, AllWorkers(s) - {w}, w)) && |n.workers| == |s.workers|
    ensures n.workers[w] == s.workers[w].(stop := Some(T.Chan(1, true)))
  {
    Go(start, s, Shut(Choose(w)));
    var s1 := Next(s, Shut(Choose(w))).value;
    Go(start, s1, Shut(StepWorker));
    var s2 := Next(s1, Shut(StepWorker)).value;
    n := SignalAndSee(start, s2, w);
  }

  lemma SignalAndSee(start: Pool, s: Pool, w: nat) returns (n: Pool)
    requires ReachesAlone(start, s) && Good(s) && w < |s.workers|
    requires s.ctl.shut.WorkerSend? && s.ctl.shut.mode.Hard? && s.ctl.shut.w == w
    requires s.workers[w].task.Some? && s.workers[w].stop == Some(T.OPEN_EMPTY)
    ensures ReachesAlone(start, n) && Good(n) && n.tasks == s.tasks && n.cfg == s.cfg
    ensures n.ctl == s.ctl.(shut := WorkerLoad(Hard, s.ctl.shut.todo, w)) && |n.workers| == |s.workers|
    ensures n.workers[w] == s.workers[w].(stop := Some(T.Chan(1, true)))
  {
    Go(start, s, Shut(StepWorker));
    n := CloseAndSee(start, Next(s, Shut(StepWorker)).value, w);
  }

  lemma CloseAndSee(start: Pool, s: Pool, w: nat) returns (n: Pool)
    requires ReachesAlone(start, s) && Good(s) && w < |s.workers|
    requires s.ctl.shut.WorkerClose? && s.ctl.shut.mode.Hard? && s.ctl.shut.w == w
    requires s.workers[w].task.Some? && s.workers[w].stop == Some(T.Chan(1, false))
    ensures ReachesAlone(start, n) && Good(n) && n.tasks == s.tasks && n.cfg == s.cfg
    ensures n.ctl == s.ctl.(shut := WorkerLoad(Hard, s.ctl.shut.todo, w)) && |n.workers| == |s.workers|
    ensures n.workers[w] == s.workers[w].(stop := Some(T.Chan(1, true)))
  {
    Go(start, s, Shut(StepWorker));
    n := SeeIt(start, Next(s, Shut(StepWorker)).value, w);
  }

  lemma SeeIt(start: Pool, s: Pool, w: nat) returns (n: Pool)
    requires ReachesAlone(start, s) && Good(s) && w < |s.workers| && s.workers[w].task.Some?
    requires s.ctl.shut.WorkerTask? && s.ctl.shut.mode.Hard? && s.ctl.shut.w == w
    ensures ReachesAlone(start, n) && Good(n) && n == s.(ctl := s.ctl.(shut := WorkerLoad(Hard, s.ctl.shut.todo, w)))
  {
    Go(start, s, Shut(StepWorker));
    n := Next(s, Shut(StepWorker)).value;
  }

  /** The worker ends its process call, and its current task becomes nil. */
  lemma {:induction false} FinishHand(start: Pool, s: Pool, w: nat) returns (n: Pool)
    requires ReachesAlone(start, s) && Good(s) && w < |s.workers|
    requires InHand(s.workers[w].pc) || s.workers[w].pc.After?
    requires WorkerGoesOn(s.workers[w], s.tasks, s.cfg.workerTimeout)
    ensures ReachesAlone(start, n) && Good(n) && n.ctl == s.ctl && n.cfg == s.cfg && |n.workers| == |s.workers|
    ensures n.workers[w].task.None? && n.workers[w].pc.Metrics?
    decreases WorkerRank(s.workers[w], s.tasks)
  {
    if s.workers[w].pc.After? {
      ClearStep(s, w);
      Go(start, s, OfWorker(w, ClearTask));
      n := Next(s, OfWorker(w, ClearTask)).value;
    } else {
      var l := HandGoesOn(s, w);
      Go(start, s, l);
      n := FinishHand(start, Next(s, l).value, w);
    }
  }

  /** The call on nil panics, and Stop returns. */
  lemma LoadsNothing(start: Pool, s: Pool, w: nat) returns (n: Pool)
    requires ReachesAlone(start, s) && Good(s) && w < |s.workers| && s.workers[w].task.None?
    requires s.ctl.shut.WorkerLoad? && s.ctl.shut.w == w && s.ctl.lock.StopLock?
    ensures ReachesAlone(start, n) && n.ctl.outcome == Some(Aborted) && n.ctl.lock.Free?
    ensures n.workers == s.workers && n.cfg == s.cfg
  {
    Go(start, s, Shut(StepWorker));
    n := StopReturns(start, Next(s, Shut(StepWorker)).value);
  }

  lemma StopReturns(start: Pool, s: Pool) returns (n: Pool)
    requires ReachesAlone(start, s) && Good(s) && s.ctl.shut == Finishing(Aborted) && s.ctl.lock.StopLock?
    ensures ReachesAlone(start, n) && n.ctl.lock.Free? && n.ctl.outcome == Some(Aborted) && n.ctl.state.PoolShutdown?
    ensures n.workers == s.workers && n.cfg == s.cfg && n.tasks == s.tasks
  {
    Go(start, s, Shut(Finish));
    n := StopSignals(start, Next(s, Shut(Finish)).value);
  }

  lemma StopSignals(start: Pool, s: Pool) returns (n: Pool)
    requires ReachesAlone(start, s) && Good(s) && s.ctl.shut.SignalRunner?
    ensures ReachesAlone(start, n) && n.ctl.lock.Free? && n.ctl.outcome == s.ctl.outcome && n.ctl.state == s.ctl.state
    ensures n.workers == s.workers && n.cfg == s.cfg && n.tasks == s.tasks
  {
    Go(start, s, Shut(StepSignal));
    var s1 := Next(s, Shut(StepSignal)).value;
    Go(start, s1, Shut(StepSignal));
    n := StopUnlocks(start, Next(s1, Shut(StepSignal)).value);
  }

  lemma StopUnlocks(start: Pool, s: Pool) returns (n: Pool)
    requires ReachesAlone(start, s) && Good(s) && s.ctl.shut.Unlocking?
    ensures ReachesAlone(start, n) && n.ctl.lock.Free? && n.ctl.outcome == s.ctl.outcome && n.ctl.state == s.ctl.state
    ensures n.workers == s.workers && n.cfg == s.cfg && n.tasks == s.tasks
  {
    Go(start, s, Shut(StepSignal));
    n := Next(s, Shut(StepSignal)).value;
  }

  /** Stop(HARD) has begun, and this worker has a task that ends. */
  ghost predicate Occupied(s: Pool, w: nat) {
    && Good(s) && s.ctl.shut == CloseQueue(Hard) && s.ctl.lock.StopLock? && w < |s.workers|
    && HeldTask(s.workers[w].pc).Some? && WorkerGoesOn(s.workers[w], s.tasks, s.cfg.workerTimeout)
  }

  /** A worker past Got is working, with its task set and an open stop channel. */
  lemma WorkingFacts(s: Pool, w: nat)
    requires Occupied(s, w) && !s.workers[w].pc.Got?
    ensures s.workers[w].state.Working? && s.workers[w].task.Some? && s.workers[w].stop == Some(T.OPEN_EMPTY)
    ensures InHand(s.workers[w].pc) || s.workers[w].pc.After?
  {
    assert WorkerInv(w, s.workers[w], s.errs.items, s.ctl.runner);
    OpenIsUnsignalled(s, w);
  }

  lemma TakeInHand(start: Pool, s: Pool, w: nat) returns (n: Pool)
    requires ReachesAlone(start, s) && Occupied(s, w)
    ensures ReachesAlone(start, n) && Occupied(n, w) && !n.workers[w].pc.Got? && n.cfg == s.cfg
  {
    n := s;
    if s.workers[w].pc.Got? {
      Go(start, s, OfWorker(w, SetWorking));
      n := Next(s, OfWorker(w, SetWorking)).value;
    }
  }

  /** The queue is drained and the worker's task is seen. */
  lemma ReachLoad(start: Pool, s: Pool, w: nat) returns (n: Pool)
    requires ReachesAlone(start, s) && Occupied(s, w) && !s.workers[w].pc.Got?
    ensures ReachesAlone(start, n) && Good(n) && n.ctl.shut.WorkerLoad? && n.ctl.shut.w == w < |n.workers|
    ensures n.ctl.lock.StopLock?
    ensures n.workers[w] == s.workers[w].(stop := Some(T.Chan(1, true))) && n.tasks == s.tasks && n.cfg == s.cfg
  {
    WorkingFacts(s, w);
    var m := CloseAndDrain(start, s);
    assert AllWorkers(m) == AllWorkers(s) && w in AllWorkers(s);
    n := SeeTask(start, m, w);
  }

  lemma CloseAndDrain(start: Pool, s: Pool) returns (n: Pool)
    requires ReachesAlone(start, s) && Good(s) && s.ctl.shut == CloseQueue(Hard)
    ensures ReachesAlone(start, n) && Good(n) && Drained(s, n, PickWorker(Hard, AllWorkers(s)))
  {
    Go(start, s, Shut(StepQueue));
    var closed := Next(s, Shut(StepQueue)).value;
    assert AllWorkers(closed) == AllWorkers(s);
    n := DrainAll(start, closed);
  }

  lemma CutShort(start: Pool, s: Pool, w: nat) returns (n: Pool)
    requires ReachesAlone(start, s) && Occupied(s, w)
    ensures ReachesAlone(start, n) && n.ctl.outcome == Some(Aborted) && n.ctl.lock.Free? && n.cfg == s.cfg
    ensures w < |n.workers| && n.workers[w].pc.Metrics?
  {
    var s1 := TakeInHand(start, s, w);
    WorkingFacts(s1, w);
    var s2 := ReachLoad(start, s1, w);
    var s3 := FinishHand(start, s2, w);
    n := LoadsNothing(start, s3, w);
  }

  // ----- Exactly -----

  /** No task that is held, queued or still to be added would hang. */
  ghost predicate NoneWouldHang(s: Pool) {
    && NoneHangs(s)
    && forall t :: t in s.tasks && t in s.loc && (s.loc[t].Fresh? || s.loc[t].Queued?) ==>
         !Hangs(s.tasks[t], s.cfg.workerTimeout)
  }

  /** Some worker comes to have a task. */
  lemma SomeoneIsOccupied(start: Pool, s: Pool) returns (n: Pool, w: nat)
    requires ReachesAlone(start, s) && Beginning(s) && s.ctl.shut == CloseQueue(Hard) && NoneWouldHang(s)
    requires s.queue.items != [] || !NoneHeld(s.workers)
    ensures ReachesAlone(start, n) && Occupied(n, w) && n.cfg == s.cfg
  {
    if v: nat :| v < |s.workers| && HeldTask(s.workers[v].pc).Some? {
      assert WorkerGoesOn(s.workers[v], s.tasks, s.cfg.workerTimeout);
      n, w := s, v;
    } else {
      var t := s.queue.items[0];
      assert t in s.loc && s.loc[t].Queued? && t in s.tasks && !Hangs(s.tasks[t], s.cfg.workerTimeout);
      var m := Settle(start, s);
      assert m.tasks[t] == s.tasks[t];
      n := FirstTakes(start, m, t);
      w := 0;
    }
  }

  lemma FirstTakes(start: Pool, s: Pool, t: TaskId) returns (n: Pool)
    requires ReachesAlone(start, s) && Beginning(s) && s.ctl.shut == CloseQueue(Hard) && AllReceiving(s)
    requires s.queue.items != [] && s.queue.items[0] == t && t in s.tasks && !Hangs(s.tasks[t], s.cfg.workerTimeout)
    ensures ReachesAlone(start, n) && Occupied(n, 0) && n.cfg == s.cfg
  {
    assert |s.workers| > 0 && s.workers[0].pc.Receive?;
    Go(start, s, OfWorker(0, TakeTask));
    n := Next(s, OfWorker(0, TakeTask)).value;
  }

  lemma HardLosesRace(s: Pool) returns (n: Pool, w: nat)
    requires Reachable(s) && s.ctl.lock.Free? && s.ctl.state.BgRunning? && !s.ctl.runner.Locking? && NoneWouldHang(s)
    requires !NothingToDo(s)
    ensures ShutNext(s, CallStop(Hard)).Some? && ReachesAlone(ShutNext(s, CallStop(Hard)).value, n)
    ensures n.ctl.outcome == Some(Aborted) && n.ctl.lock.Free? && n.cfg == s.cfg
    ensures w < |n.workers| && n.workers[w].pc.Metrics?
  {
    StopBegins(s, Hard);
    var start := ShutNext(s, CallStop(Hard)).value;
    AloneFromItself(start);
    var m := start;
    if s.queue.items == [] && NoneHeld(s.workers) {
      m := SomeoneAdds(start);
      LoadedWouldNotHang(start, m);
    }
    var u: Pool;
    u, w := SomeoneIsOccupied(start, m);
    n := CutShort(start, u, w);
  }

  lemma LoadedWouldNotHang(s: Pool, n: Pool)
    requires NoneWouldHang(s) && Loaded(s, n) && s.loc.Keys == s.tasks.Keys
    ensures NoneWouldHang(n)
  {
  }

  /** No continuation without Stop calls from outside is cut short. */
  ghost predicate NeverCutShort(s: Pool) {
    forall n: Pool :: ReachesAlone(s, n) ==> Unaborted(n.ctl)
  }

  lemma VacantIsNeverCutShort(s: Pool, mode: Mode)
    requires Reachable(s) && ShutNext(s, CallStop(mode)).Some? && NothingToDo(s)
    ensures NeverCutShort(ShutNext(s, CallStop(mode)).value)
  {
    var start := ShutNext(s, CallStop(mode)).value;
    forall n: Pool | ReachesAlone(start, n)
      ensures Unaborted(n.ctl)
    {
      var labels: seq<Label> :| Run(start, labels) == Some(n);
      NothingToDoNeverAborts(s, Shut(CallStop(mode)), labels);
    }
  }

  /** Stop(HARD) is never cut short, with no Stop call from outside, exactly when at the call no worker
      has a task, none is queued and none is on its way. */
  lemma HardIsSafeExactly(s: Pool)
    requires Reachable(s) && s.ctl.lock.Free? && s.ctl.state.BgRunning? && !s.ctl.runner.Locking? && NoneWouldHang(s)
    ensures ShutNext(s, CallStop(Hard)).Some?
    ensures NeverCutShort(ShutNext(s, CallStop(Hard)).value) <==> NothingToDo(s)
  {
    if NothingToDo(s) {
      VacantIsNeverCutShort(s, Hard);
    } else {
      var n, w := HardLosesRace(s);
    }
  }

  // ----- Quiescence, by what the caller of Stop knows -----

  /** What the caller of Stop can check. */
  ghost predicate SafeToStop(s: Pool, mode: Mode) {
    mode.Hard? ==> NothingToDo(s)
  }

  /** The shutdown is over and did not give up waiting. */
  predicate EndedInTime(s: Pool) {
    s.ctl.outcome.Some? && s.ctl.outcome != Some(TimedOut)
  }

  lemma SafeStopIsUnaborted(s: Pool, mode: Mode, labels: seq<Label>)
    requires Reachable(s) && ShutNext(s, CallStop(mode)).Some? && SafeToStop(s, mode)
    requires Run(ShutNext(s, CallStop(mode)).value, labels).Some?
    ensures Unaborted(Run(ShutNext(s, CallStop(mode)).value, labels).value.ctl)
  {
    if mode.Hard? {
      NothingToDoNeverAborts(s, Shut(CallStop(mode)), labels);
    } else {
      GentleStopNeverAborts(s, mode, labels);
    }
  }

  lemma SafeStopEndsCompleted(s: Pool, mode: Mode, labels: seq<Label>)
    requires Reachable(s) && ShutNext(s, CallStop(mode)).Some? && SafeToStop(s, mode)
    requires Run(ShutNext(s, CallStop(mode)).value, labels).Some?
    requires EndedInTime(Run(ShutNext(s, CallStop(mode)).value, labels).value)
    ensures var end := Run(ShutNext(s, CallStop(mode)).value, labels).value;
      Good(end) && end.ctl.outcome == Some(Completed)
  {
    ReachableIsGood(s);
    NextKeepsInv(s, Shut(CallStop(mode)));
    NextKeepsShutdown(s, Shut(CallStop(mode)));
    RunKeepsGood(ShutNext(s, CallStop(mode)).value, labels);
    SafeStopIsUnaborted(s, mode, labels);
    OutcomeIsOneOfThree(Run(ShutNext(s, CallStop(mode)).value, labels).value.ctl);
  }

  lemma OutcomeIsOneOfThree(c: Control)
    requires c.outcome.Some? && c.outcome != Some(TimedOut) && c.outcome != Some(Aborted)
    ensures c.outcome == Some(Completed)
  {
    match c.outcome.value
    case Completed =>
    case TimedOut =>
    case Aborted =>
  }

  /** When Stop has ended without hitting its timeout, every worker is terminated, no process call is
      under way, and in no continuation does a handler start again. */
  lemma QuiescenceAfterStop(s: Pool, mode: Mode, labels: seq<Label>, more: seq<Label>)
    requires Reachable(s) && ShutNext(s, CallStop(mode)).Some? && SafeToStop(s, mode)
    requires Run(ShutNext(s, CallStop(mode)).value, labels).Some?
    requires var end := Run(ShutNext(s, CallStop(mode)).value, labels).value;
      EndedInTime(end) && Run(end, more).Some?
    ensures var end := Run(ShutNext(s, CallStop(mode)).value, labels).value;
      Quiescent(end) && Quiescent(Run(end, more).value) && SameStarts(end.tasks, Run(end, more).value.tasks)
  {
    SafeStopEndsCompleted(s, mode, labels);
    QuiescenceOnceCompleted(Run(ShutNext(s, CallStop(mode)).value, labels).value, more);
  }

  /** Every end in time without Stop calls from outside finds the pool at rest. */
  ghost predicate EndsQuiescent(s: Pool) {
    forall n: Pool :: ReachesAlone(s, n) && EndedInTime(n) ==> Quiescent(n)
  }

  /** The caller's condition is exact. */
  lemma QuiescenceExactly(s: Pool, mode: Mode)
    requires Reachable(s) && s.ctl.lock.Free? && s.ctl.state.BgRunning? && !s.ctl.runner.Locking? && NoneWouldHang(s)
    ensures ShutNext(s, CallStop(mode)).Some?
    ensures EndsQuiescent(ShutNext(s, CallStop(mode)).value) <==> SafeToStop(s, mode)
  {
    var start := ShutNext(s, CallStop(mode)).value;
    if SafeToStop(s, mode) {
      forall n: Pool | ReachesAlone(start, n) && EndedInTime(n)
        ensures Quiescent(n)
      {
        var labels: seq<Label> :| Run(start, labels) == Some(n);
        assert Run(n, []) == Some(n);
        QuiescenceAfterStop(s, mode, labels, []);
      }
    } else {
      var n, w := HardLosesRace(s);
      assert !AtRest(n.workers[w]);
    }
  }
}
