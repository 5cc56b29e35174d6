/**
What a shutdown does to the tasks, said without its mode: SOFT, HARD and the loss
of the parent context empty the queue, and the last two stop what is running.
*/
module PoolDrain {
  import opened Options
  import T = Tasks
  import L = TaskLife
  import opened PoolMachine
  import opened PoolInvariant
  import opened PoolSteps
  import opened PoolShutSteps
  import opened PoolShutdown
  import opened PoolTheorems
  import opened PoolStop
  import opened PoolAborts

  // ----- The queue is emptied -----

  predicate Drains(shut: ShutPc) {
    || (shut.CloseQueue? && !shut.mode.Light?) || shut.DrainQueue?
    || ((shut.TaskCheck? || shut.TaskSend? || shut.TaskClose?) && shut.resume.ResumeDrain?)
  }

  /** The queue is being emptied, or is closed and empty for good. */
  predicate Draining(s: Pool) {
    Rank(s.ctl.state) >= 2 && (Drains(s.ctl.shut) || (s.queue.closed && s.queue.items == []))
  }

  lemma DrainTaskStep(s: Pool)
    requires Draining(s) && TaskNext(s).Some? && !SecondStop(s)
    requires StopsInv(s.ctl.shut, s.tasks, s.loc)
    ensures var n := TaskNext(s).value; n.queue == s.queue && (Drains(s.ctl.shut) ==> Drains(n.ctl.shut))
  {
  }

  lemma DrainQueueStep(s: Pool)
    requires Draining(s) && QueueNext(s).Some? && !s.queue.closed == s.ctl.shut.CloseQueue?
    ensures var n := QueueNext(s).value; Drains(n.ctl.shut) || (n.queue.closed && n.queue.items == [])
  {
  }

  lemma ShutLeavesQueue(s: Pool, l: ShutLabel)
    requires ShutNext(s, l).Some? && !l.StepQueue?
    ensures ShutNext(s, l).value.queue == s.queue
  {
    match l
    case StepTask => TaskStopIsNarrow(s);
    case StepWorker => WorkerStopChanges(s);
    case Choose(w) => ChooseShape(s, w);
    case _ =>
      if Ending(l) {
        EndingKeepsClients(s, l);
      }
  }

  /** Only the two steps of the drain are taken while it goes on. */
  lemma DrainStays(s: Pool, l: ShutLabel)
    requires Drains(s.ctl.shut) && ShutNext(s, l).Some?
    ensures l.StepQueue? || l.StepTask? || (l.CallStop? && s.ctl.lock.Free?)
  {
  }

  lemma DrainShutStep(s: Pool, l: ShutLabel)
    requires Good(s) && Draining(s) && ShutNext(s, l).Some?
    ensures Draining(ShutNext(s, l).value)
  {
    ShutGoesOnward(s, l);
    if l.StepQueue? {
      DrainQueueStep(s);
    } else {
      ShutLeavesQueue(s, l);
      if Drains(s.ctl.shut) {
        DrainStays(s, l);
        if l.StepTask? {
          DrainTaskStep(s);
        }
      }
    }
  }

  lemma DrainClientStep(s: Pool, c: ClientId, l: ClientLabel)
    requires Draining(s) && ClientNext(s, c, l).Some?
    ensures Draining(ClientNext(s, c, l).value)
  {
  }

  lemma DrainWorkerStep(s: Pool, w: WorkerId, l: WorkerLabel)
    requires Draining(s) && WorkerNext(s, w, l).Some?
    ensures Draining(WorkerNext(s, w, l).value)
  {
  }

  lemma DrainRunnerStep(s: Pool, l: RunnerLabel)
    requires Draining(s) && LockInv(s.ctl) && RunnerNext(s, l).Some?
    ensures Draining(RunnerNext(s, l).value)
  {
  }

  lemma DrainStep(s: Pool, l: Label)
    requires Good(s) && Draining(s) && Next(s, l).Some?
    ensures Draining(Next(s, l).value)
  {
    match l
    case Runner(rl) => DrainRunnerStep(s, rl);
    case Shut(sl) => DrainShutStep(s, sl);
    case OfWorker(w, wl) => DrainWorkerStep(s, w, wl);
    case OfClient(c, cl) => DrainClientStep(s, c, cl);
    case _ =>
  }

  lemma {:induction false} DrainRun(s: Pool, labels: seq<Label>)
    requires Good(s) && Draining(s) && Run(s, labels).Some?
    ensures Good(Run(s, labels).value) && Draining(Run(s, labels).value)
    decreases |labels|
  {
    if labels != [] {
      NextKeepsInv(s, labels[0]);
      NextKeepsShutdown(s, labels[0]);
      DrainStep(s, labels[0]);
      DrainRun(Next(s, labels[0]).value, labels[1..]);
    }
  }

  /** Stop(SOFT), Stop(HARD), or RunBG on seeing its parent context closed. */
  predicate BeginsDrain(l: Label) {
    l == Shut(CallStop(Soft)) || l == Shut(CallStop(Hard)) || l == Runner(LockShutdown)
  }

  lemma DrainBegins(s: Pool, l: Label)
    requires s.ctl.state.BgRunning? && BeginsDrain(l) && Next(s, l).Some?
    ensures Draining(Next(s, l).value)
  {
  }

  /** However such a shutdown ends, in order, by its timeout or cut short, it leaves no task in the queue. */
  lemma QueueIsEmptied(s: Pool, l: Label, labels: seq<Label>)
    requires Reachable(s) && s.ctl.state.BgRunning? && BeginsDrain(l) && Next(s, l).Some?
    requires Run(Next(s, l).value, labels).Some? && Run(Next(s, l).value, labels).value.ctl.outcome.Some?
    ensures Run(Next(s, l).value, labels).value.queue.items == []
  {
    ReachableIsGood(s);
    NextKeepsInv(s, l);
    NextKeepsShutdown(s, l);
    DrainBegins(s, l);
    DrainRun(Next(s, l).value, labels);
    EndedIsNotDraining(Run(Next(s, l).value, labels).value);
  }

  lemma EndedIsNotDraining(s: Pool)
    requires CtlInv(s.ctl, s.queue.closed, s.errs.closed) && s.ctl.outcome.Some?
    ensures !Drains(s.ctl.shut)
  {
  }

  // ----- The running tasks are stopped -----

  /** Every position of the shutdown that has a mode has this one. */
  predicate HardOnly(c: Control) {
    Rank(c.state) >= 2 && (HasMode(c.shut) ==> c.shut.mode.Hard?)
  }

  lemma HardTaskCheck(s: Pool)
    requires HardOnly(s.ctl) && s.ctl.shut.TaskCheck? && TaskNext(s).Some?
    ensures var c := TaskNext(s).value.ctl; HasMode(c.shut) ==> c.shut.mode.Hard?
  {
  }

  lemma HardTaskStep(s: Pool)
    requires HardOnly(s.ctl) && TaskNext(s).Some?
    ensures var c := TaskNext(s).value.ctl; HasMode(c.shut) ==> c.shut.mode.Hard?
  {
    if s.ctl.shut.TaskCheck? {
      HardTaskCheck(s);
    }
  }

  lemma HardQueueStep(s: Pool)
    requires HardOnly(s.ctl) && QueueNext(s).Some?
    ensures var c := QueueNext(s).value.ctl; HasMode(c.shut) ==> c.shut.mode.Hard?
  {
  }

  lemma HardTestStep(s: Pool)
    requires HardOnly(s.ctl) && (s.ctl.shut.TestIdle? || s.ctl.shut.TestStop?) && WorkerTestNext(s).Some?
    ensures var c := WorkerTestNext(s).value.ctl; HasMode(c.shut) ==> c.shut.mode.Hard?
  {
  }

  lemma HardSignalStep(s: Pool)
    requires HardOnly(s.ctl) && (s.ctl.shut.WorkerSend? || s.ctl.shut.WorkerClose?) && WorkerStopNext(s).Some?
    ensures var c := WorkerStopNext(s).value.ctl; HasMode(c.shut) ==> c.shut.mode.Hard?
  {
  }

  lemma HardLoadStep(s: Pool)
    requires HardOnly(s.ctl) && (s.ctl.shut.WorkerTask? || s.ctl.shut.WorkerLoad?) && WorkerTaskNext(s).Some?
    ensures var c := WorkerTaskNext(s).value.ctl; HasMode(c.shut) ==> c.shut.mode.Hard?
  {
  }

  lemma HardWorkerStep(s: Pool)
    requires HardOnly(s.ctl) && WorkerStopNext(s).Some?
    ensures var c := WorkerStopNext(s).value.ctl; HasMode(c.shut) ==> c.shut.mode.Hard?
  {
    if s.ctl.shut.TestIdle? || s.ctl.shut.TestStop? {
      HardTestStep(s);
    } else if s.ctl.shut.WorkerTask? || s.ctl.shut.WorkerLoad? {
      HardLoadStep(s);
    } else {
      HardSignalStep(s);
    }
  }

  lemma HardChoice(s: Pool, w: WorkerId)
    requires HardOnly(s.ctl) && ChooseNext(s, w).Some?
    ensures var c := ChooseNext(s, w).value.ctl; HasMode(c.shut) ==> c.shut.mode.Hard?
  {
  }

  lemma HardShutStep(s: Pool, l: ShutLabel)
    requires HardOnly(s.ctl) && ShutInv(s.ctl, s.queue.closed, s.errs.closed) && ShutNext(s, l).Some?
    ensures HardOnly(ShutNext(s, l).value.ctl)
  {
    ShutGoesOnward(s, l);
    if Ending(l) {
      EndingIsLate(s, l);
    } else {
      match l
      case StepTask => HardTaskStep(s);
      case StepQueue => HardQueueStep(s);
      case StepWorker => HardWorkerStep(s);
      case Choose(w) => HardChoice(s, w);
      case _ =>
    }
  }

  lemma HardRunnerStep(s: Pool, l: RunnerLabel)
    requires HardOnly(s.ctl) && RunnerNext(s, l).Some?
    ensures HardOnly(RunnerNext(s, l).value.ctl)
  {
  }

  lemma HardStep(s: Pool, l: Label)
    requires HardOnly(s.ctl) && ShutInv(s.ctl, s.queue.closed, s.errs.closed) && Next(s, l).Some?
    ensures HardOnly(Next(s, l).value.ctl)
  {
    match l
    case Runner(rl) => HardRunnerStep(s, rl);
    case Shut(sl) => HardShutStep(s, sl);
    case OfWorker(w, wl) => WorkerKeepsLifeCycle(s, w, wl);
    case _ =>
  }

  lemma {:induction false} HardRun(s: Pool, labels: seq<Label>)
    requires Good(s) && HardOnly(s.ctl) && Run(s, labels).Some?
    ensures Good(Run(s, labels).value) && HardOnly(Run(s, labels).value.ctl)
    decreases |labels|
  {
    if labels != [] {
      NextKeepsInv(s, labels[0]);
      NextKeepsShutdown(s, labels[0]);
      HardStep(s, labels[0]);
      HardRun(Next(s, labels[0]).value, labels[1..]);
    }
  }

  /** The task has been sent its stop signal, its channel closed; or its process call has ended it. */
  predicate StoppedOrOver(t: T.Task) {
    t.stop.ch.closed || (!t.state.InProcess? && !t.state.Ready?)
  }

  /** The shutdown is at this worker, and has yet to come to its task. */
  predicate Visiting(shut: ShutPc, w: WorkerId) {
    (shut.TestStop? || shut.WorkerSend? || shut.WorkerClose? || shut.WorkerTask? || shut.WorkerLoad?) && shut.w == w
  }

  predicate AtTask(shut: ShutPc, t: TaskId) {
    (shut.TaskCheck? || shut.TaskSend? || shut.TaskClose?) && shut.t == t && shut.resume.ResumeWorkers?
  }

  /** Worker w is being visited with task t in process, until the task is stopped, over, or the shutdown cut short. */
  predicate Turn(s: Pool, w: WorkerId, t: TaskId) {
    && HardOnly(s.ctl) && w < |s.workers| && t in s.tasks
    && (|| StoppedOrOver(s.tasks[t]) || Aborting(s.ctl) || s.ctl.outcome == Some(Aborted)
        || (s.tasks[t].state.InProcess?
            && ((Visiting(s.ctl.shut, w) && s.workers[w].task == Some(t)) || AtTask(s.ctl.shut, t))))
  }

  lemma OverStays(t: T.Task, p: T.ProcessLabel)
    requires StoppedOrOver(t) && T.ProcessStep(t, p).Some?
    ensures StoppedOrOver(T.ProcessStep(t, p).value)
  {
  }

  lemma InProcessGoesOn(t: T.Task, p: T.ProcessLabel)
    requires t.state.InProcess? && T.ProcessStep(t, p).Some?
    ensures T.ProcessStep(t, p).value.state.InProcess? || StoppedOrOver(T.ProcessStep(t, p).value)
  {
  }

  lemma OutsideKeepsTurn(t: T.Task, o: T.OutsideLabel)
    requires T.OutsideStep(t, o).Some?
    ensures var u := T.OutsideStep(t, o).value;
      (StoppedOrOver(t) ==> StoppedOrOver(u)) && u.state == t.state
  {
  }

  /** A worker gives up its current task only after process has left it. */
  lemma ClearedIsStoppedOrOver(s: Pool, w: WorkerId)
    requires HoldInv(s.workers, s.loc) && TasksInv(s.tasks, s.loc, s.workers) && w < |s.workers| && s.workers[w].pc.After?
    ensures s.workers[w].pc.t in s.tasks && StoppedOrOver(s.tasks[s.workers[w].pc.t])
  {
    var t := s.workers[w].pc.t;
    assert HeldTask(s.workers[w].pc) == Some(t) && s.loc[t] == Held(w);
    assert PlaceInv(s.tasks[t], s.loc[t], s.workers) && L.TaskInv(s.tasks[t]) && L.RecordInv(s.tasks[t]);
  }

  lemma ProcessKeepsTurn(s: Pool, v: WorkerId, l: WorkerLabel, w: WorkerId, t: TaskId)
    requires Turn(s, w, t) && (l.EnterTask? || l.InTask? || l.LeaveTask?) && WorkerNext(s, v, l).Some?
    ensures Turn(WorkerNext(s, v, l).value, w, t)
  {
    if l.InTask? && s.workers[v].pc.t == t {
      if StoppedOrOver(s.tasks[t]) {
        OverStays(s.tasks[t], l.p);
      } else if s.tasks[t].state.InProcess? {
        InProcessGoesOn(s.tasks[t], l.p);
      }
    }
  }

  lemma LocalKeepsCurrent(w: WorkerId, k: Worker, errs: seq<WorkerId>, runner: RunnerPc, ctxLive: bool, queue: Fifo<TaskId>, l: WorkerLabel)
    requires WorkerInv(w, k, errs, runner) && k.task.Some? && LocalNext(ctxLive, queue, k, l).Some?
    ensures LocalNext(ctxLive, queue, k, l).value.task == k.task
  {
  }

  /** Whatever the step of another kind, the current task is kept or was cleared after process. */
  lemma WorkerKeepsCurrent(s: Pool, v: WorkerId, l: WorkerLabel)
    requires v < |s.workers| && WorkerInv(v, s.workers[v], s.errs.items, s.ctl.runner)
    requires !l.EnterTask? && !l.InTask? && !l.LeaveTask? && WorkerNext(s, v, l).Some?
    ensures var n := WorkerNext(s, v, l).value;
      && n.ctl == s.ctl && n.tasks == s.tasks && n.workers == s.workers[v := n.workers[v]]
      && (l.ClearTask? ==> s.workers[v].pc.After? && s.workers[v].task == Some(s.workers[v].pc.t))
      && (!l.ClearTask? && s.workers[v].task.Some? ==> n.workers[v].task == s.workers[v].task)
  {
    if l.TakeTask? || l.LosePanic? || l.ClearTask? || l.ReportTaken? || l.ReportState? || l.ReportPanic? {
    } else if s.workers[v].task.Some? {
      LocalKeepsCurrent(v, s.workers[v], s.errs.items, s.ctl.runner, s.ctl.ctxLive, s.queue, l);
    }
  }

  lemma WorkerKeepsTurn(s: Pool, v: WorkerId, l: WorkerLabel, w: WorkerId, t: TaskId)
    requires Good(s) && Turn(s, w, t) && WorkerNext(s, v, l).Some?
    ensures Turn(WorkerNext(s, v, l).value, w, t)
  {
    if l.EnterTask? || l.InTask? || l.LeaveTask? {
      ProcessKeepsTurn(s, v, l, w, t);
    } else {
      assert WorkerInv(v, s.workers[v], s.errs.items, s.ctl.runner);
      WorkerKeepsCurrent(s, v, l);
      if l.ClearTask? {
        ClearedIsStoppedOrOver(s, v);
      }
    }
  }

  lemma TaskKeepsTurn(s: Pool, w: WorkerId, t: TaskId)
    requires Good(s) && Turn(s, w, t) && TaskNext(s).Some?
    ensures Turn(TaskNext(s).value, w, t)
  {
    HardTaskStep(s);
    ShutGoesOnward(s, StepTask);
    TaskStopIsNarrow(s);
    assert s.ctl.shut.t in s.tasks ==> L.TaskInv(s.tasks[s.ctl.shut.t]);
    TaskStepAdvancesTurn(s, t);
  }

  /** The shutdown's step at a task stops it, or goes on to stop it, or is cut short. */
  lemma TaskStepAdvancesTurn(s: Pool, t: TaskId)
    requires TaskNext(s).Some? && t in s.tasks && L.TaskInv(s.tasks[t])
    ensures t in TaskNext(s).value.tasks
    ensures var n := TaskNext(s).value;
      && (StoppedOrOver(s.tasks[t]) ==> StoppedOrOver(n.tasks[t]))
      && (AtTask(s.ctl.shut, t) && s.tasks[t].state.InProcess? ==>
            || StoppedOrOver(n.tasks[t]) || Aborting(n.ctl)
            || (AtTask(n.ctl.shut, t) && n.tasks[t].state.InProcess?))
      && (s.ctl.shut.TaskCheck? || s.ctl.shut.TaskSend? || s.ctl.shut.TaskClose?)
  {
  }

  /** A working worker has a stop channel, open until the shutdown closes it. */
  lemma VisitKeepsTurn(s: Pool, w: WorkerId, t: TaskId)
    requires Good(s) && Turn(s, w, t) && WorkerStopNext(s).Some?
    ensures Turn(WorkerStopNext(s).value, w, t)
  {
    HardWorkerStep(s);
    ShutGoesOnward(s, StepWorker);
    WorkerStopChanges(s);
    if !StoppedOrOver(s.tasks[t]) && Visiting(s.ctl.shut, w) {
      MiddleHasNoOutcome(s);
      assert WorkerInv(w, s.workers[w], s.errs.items, s.ctl.runner);
      VisitGoesOn(s);
    }
  }

  lemma VisitGoesOn(s: Pool)
    requires HardOnly(s.ctl) && ChannelsInv(s.ctl, s.workers) && WorkerStopNext(s).Some?
    requires Visiting(s.ctl.shut, s.ctl.shut.w) && s.ctl.shut.w < |s.workers|
    requires s.workers[s.ctl.shut.w].stop.Some? && s.workers[s.ctl.shut.w].task.Some?
    ensures var n := WorkerStopNext(s).value;
      Visiting(n.ctl.shut, s.ctl.shut.w) || AtTask(n.ctl.shut, s.workers[s.ctl.shut.w].task.value)
  {
  }

  lemma ShutKeepsTurn(s: Pool, l: ShutLabel, w: WorkerId, t: TaskId)
    requires Good(s) && Turn(s, w, t) && ShutNext(s, l).Some?
    ensures Turn(ShutNext(s, l).value, w, t)
  {
    HardShutStep(s, l);
    if l.StepTask? {
      TaskKeepsTurn(s, w, t);
    } else if l.StepWorker? {
      VisitKeepsTurn(s, w, t);
    } else {
      RestKeepsTurn(s, l, w, t);
    }
  }

  lemma RestKeepsTurn(s: Pool, l: ShutLabel, w: WorkerId, t: TaskId)
    requires Good(s) && Turn(s, w, t) && ShutNext(s, l).Some? && !l.StepTask? && !l.StepWorker?
    requires HardOnly(ShutNext(s, l).value.ctl)
    ensures Turn(ShutNext(s, l).value, w, t)
  {
    RestKeepsTasks(s, l);
    OtherStepsAreElsewhere(s, l, w, t);
    if !StoppedOrOver(s.tasks[t]) {
      AbortedStays(s, l);
    }
  }

  lemma RestKeepsTasks(s: Pool, l: ShutLabel)
    requires ShutNext(s, l).Some? && !l.StepTask? && !l.StepWorker?
    ensures ShutNext(s, l).value.tasks == s.tasks && ShutNext(s, l).value.workers == s.workers
  {
    match l
    case StepQueue =>
    case Choose(w) => ChooseShape(s, w);
    case _ =>
      if Ending(l) {
        match l
        case PollEnd => PollEndShape(s);
        case StepErrs => ErrsShape(s);
        case Finish => FinishShape(s);
        case StepSignal => SignalShape(s);
      }
  }

  lemma OtherStepsAreElsewhere(s: Pool, l: ShutLabel, w: WorkerId, t: TaskId)
    requires ShutNext(s, l).Some? && !l.StepTask? && !l.StepWorker? && LockInv(s.ctl)
    ensures !Visiting(s.ctl.shut, w) && !AtTask(s.ctl.shut, t)
  {
  }

  lemma AbortedStays(s: Pool, l: ShutLabel)
    requires CtlInv(s.ctl, s.queue.closed, s.errs.closed) && ShutNext(s, l).Some?
    requires Aborting(s.ctl) || s.ctl.outcome == Some(Aborted)
    ensures var c := ShutNext(s, l).value.ctl; Aborting(c) || c.outcome == Some(Aborted)
  {
    if s.ctl.outcome.Some? && !Aborting(s.ctl) {
      AbortedEnds(s, l);
    }
  }

  lemma AbortedEnds(s: Pool, l: ShutLabel)
    requires CtlInv(s.ctl, s.queue.closed, s.errs.closed) && ShutNext(s, l).Some? && s.ctl.outcome.Some?
    ensures ShutNext(s, l).value.ctl.outcome == s.ctl.outcome
  {
    StoppedShutStep(s, l);
    SignalShape(s);
  }

  lemma RunnerKeepsTurn(s: Pool, l: RunnerLabel, w: WorkerId, t: TaskId)
    requires Turn(s, w, t) && LockInv(s.ctl) && RunnerNext(s, l).Some?
    ensures Turn(RunnerNext(s, l).value, w, t)
  {
  }

  lemma ClientKeepsTurn(s: Pool, c: ClientId, l: ClientLabel, w: WorkerId, t: TaskId)
    requires Turn(s, w, t) && ClientNext(s, c, l).Some?
    ensures Turn(ClientNext(s, c, l).value, w, t)
  {
  }

  lemma TurnStep(s: Pool, l: Label, w: WorkerId, t: TaskId)
    requires Good(s) && Turn(s, w, t) && Next(s, l).Some?
    ensures Turn(Next(s, l).value, w, t)
  {
    match l
    case Runner(rl) => RunnerKeepsTurn(s, rl, w, t);
    case Shut(sl) => ShutKeepsTurn(s, sl, w, t);
    case OfWorker(v, wl) => WorkerKeepsTurn(s, v, wl, w, t);
    case OfClient(c, cl) => ClientKeepsTurn(s, c, cl, w, t);
    case OfTask(x, o) => OutsideKeepsTurn(s.tasks[x], o);
    case ParentClose =>
  }

  lemma {:induction false} TurnRun(s: Pool, labels: seq<Label>, w: WorkerId, t: TaskId)
    requires Good(s) && Turn(s, w, t) && Run(s, labels).Some?
    ensures Turn(Run(s, labels).value, w, t)
    decreases |labels|
  {
    if labels != [] {
      NextKeepsInv(s, labels[0]);
      NextKeepsShutdown(s, labels[0]);
      TurnStep(s, labels[0], w, t);
      TurnRun(Next(s, labels[0]).value, labels[1..], w, t);
    }
  }

  /** Stop(HARD), or RunBG on seeing its parent context closed. */
  predicate BeginsHard(l: Label) {
    l == Shut(CallStop(Hard)) || l == Runner(LockShutdown)
  }

  /** A state of such a shutdown at which it is the turn of worker w, who is working on t. */
  ghost predicate TurnOf(s: Pool, l: Label, before: seq<Label>, w: WorkerId, t: TaskId) {
    && Reachable(s) && s.ctl.state.BgRunning? && BeginsHard(l) && Next(s, l).Some? && Run(Next(s, l).value, before).Some?
    && IsWorking(Run(Next(s, l).value, before).value, w, t)
  }

  predicate IsWorking(m: Pool, w: WorkerId, t: TaskId) {
    && ShutNext(m, Choose(w)).Some? && w < |m.workers| && m.workers[w].state.Working? && m.workers[w].task == Some(t)
    && t in m.tasks && m.tasks[t].state.InProcess?
  }

  lemma HardBegins(s: Pool, l: Label)
    requires s.ctl.state.BgRunning? && BeginsHard(l) && Next(s, l).Some?
    ensures HardOnly(Next(s, l).value.ctl)
  {
  }

  lemma TurnBegins(m: Pool, w: WorkerId, t: TaskId)
    requires Good(m) && HardOnly(m.ctl) && IsWorking(m, w, t)
    ensures var n := ShutNext(m, Choose(w)).value; Good(n) && Turn(n, w, t)
  {
    NextKeepsInv(m, Shut(Choose(w)));
    NextKeepsShutdown(m, Shut(Choose(w)));
    HardChoice(m, w);
    ChooseShape(m, w);
  }

  lemma TurnOfIsGood(s: Pool, l: Label, before: seq<Label>, w: WorkerId, t: TaskId)
    requires TurnOf(s, l, before, w, t)
    ensures var m := Run(Next(s, l).value, before).value; Good(m) && HardOnly(m.ctl)
  {
    ReachableIsGood(s);
    NextKeepsInv(s, l);
    NextKeepsShutdown(s, l);
    HardBegins(s, l);
    HardRun(Next(s, l).value, before);
  }

  /** When such a shutdown comes to a worker that is working on a task in process, then, once it has gone on to
      the other workers or has ended, that task's stop channel is closed, or it has ended by itself, or the shutdown
      was cut short.  (before: the run up to the worker's turn, m; after: the run from it, to n.) */
  lemma RunningTaskIsStopped(s: Pool, l: Label, before: seq<Label>, w: WorkerId, t: TaskId, after: seq<Label>, m: Pool, n: Pool)
    requires TurnOf(s, l, before, w, t) && Run(Next(s, l).value, before) == Some(m)
    requires Run(ShutNext(m, Choose(w)).value, after) == Some(n)
    ensures t in n.tasks
    ensures n.ctl.shut.PickWorker? || n.ctl.outcome.Some? ==> StoppedOrOver(n.tasks[t]) || n.ctl.outcome == Some(Aborted)
  {
    TurnOfIsGood(s, l, before, w, t);
    TurnBegins(m, w, t);
    TurnRun(ShutNext(m, Choose(w)).value, after, w, t);
    RunKeepsGood(ShutNext(m, Choose(w)).value, after);
    TurnIsOver(n, w, t);
  }

  lemma TurnIsOver(s: Pool, w: WorkerId, t: TaskId)
    requires CtlInv(s.ctl, s.queue.closed, s.errs.closed) && Turn(s, w, t)
    ensures s.ctl.shut.PickWorker? || s.ctl.outcome.Some? ==> StoppedOrOver(s.tasks[t]) || s.ctl.outcome == Some(Aborted)
  {
  }

  // ----- Every worker has its turn -----

  predicate NotYet(shut: ShutPc, w: WorkerId) {
    match shut
    case CloseQueue(_) => true
    case DrainQueue(_) => true
    case TaskCheck(_, _, resume) => resume.ResumeDrain? || w in resume.todo
    case TaskSend(_, _, resume) => resume.ResumeDrain? || w in resume.todo
    case TaskClose(_, _, resume) => resume.ResumeDrain? || w in resume.todo
    case PickWorker(_, todo) => w in todo
    case TestIdle(_, todo, _) => w in todo
    case TestStop(_, todo, _) => w in todo
    case WorkerSend(_, todo, _) => w in todo
    case WorkerClose(_, todo, _) => w in todo
    case WorkerTask(_, todo, _) => w in todo
    case WorkerLoad(_, todo, _) => w in todo
    case _ => false
  }

  /** The worker waits for its turn, unless the shutdown was cut short. */
  predicate Awaits(s: Pool, w: WorkerId) {
    && w < |s.workers| && Rank(s.ctl.state) >= 2
    && (NotYet(s.ctl.shut, w) || Aborting(s.ctl) || s.ctl.outcome == Some(Aborted))
  }

  lemma TaskKeepsAwaiting(s: Pool, w: WorkerId)
    requires NotYet(s.ctl.shut, w) && TaskNext(s).Some?
    ensures var c := TaskNext(s).value.ctl; NotYet(c.shut, w) || Aborting(c)
  {
  }

  lemma QueueKeepsAwaiting(s: Pool, w: WorkerId)
    requires w < |s.workers| && NotYet(s.ctl.shut, w) && QueueNext(s).Some?
    ensures var c := QueueNext(s).value.ctl; NotYet(c.shut, w) || Aborting(c)
  {
    assert w in AllWorkers(s);
  }

  lemma TestKeepsAwaiting(s: Pool, w: WorkerId)
    requires NotYet(s.ctl.shut, w) && (s.ctl.shut.TestIdle? || s.ctl.shut.TestStop?) && WorkerTestNext(s).Some?
    ensures NotYet(WorkerTestNext(s).value.ctl.shut, w)
  {
  }

  lemma SignalKeepsAwaiting(s: Pool, w: WorkerId)
    requires NotYet(s.ctl.shut, w) && (s.ctl.shut.WorkerSend? || s.ctl.shut.WorkerClose?) && WorkerStopNext(s).Some?
    ensures var c := WorkerStopNext(s).value.ctl; NotYet(c.shut, w) || Aborting(c)
  {
  }

  lemma LoadKeepsAwaiting(s: Pool, w: WorkerId)
    requires NotYet(s.ctl.shut, w) && (s.ctl.shut.WorkerTask? || s.ctl.shut.WorkerLoad?) && WorkerTaskNext(s).Some?
    ensures var c := WorkerTaskNext(s).value.ctl; NotYet(c.shut, w) || Aborting(c)
  {
  }

  lemma VisitKeepsAwaiting(s: Pool, w: WorkerId)
    requires NotYet(s.ctl.shut, w) && WorkerStopNext(s).Some?
    ensures var c := WorkerStopNext(s).value.ctl; NotYet(c.shut, w) || Aborting(c)
  {
    if s.ctl.shut.TestIdle? || s.ctl.shut.TestStop? {
      TestKeepsAwaiting(s, w);
    } else if s.ctl.shut.WorkerTask? || s.ctl.shut.WorkerLoad? {
      LoadKeepsAwaiting(s, w);
    } else {
      SignalKeepsAwaiting(s, w);
    }
  }

  lemma RestKeepsAwaiting(s: Pool, l: ShutLabel, w: WorkerId)
    requires NotYet(s.ctl.shut, w) && LockInv(s.ctl) && l != Choose(w) && ShutNext(s, l).Some?
    requires !l.StepTask? && !l.StepQueue? && !l.StepWorker?
    ensures NotYet(ShutNext(s, l).value.ctl.shut, w)
  {
  }

  lemma ShutKeepsAwaiting(s: Pool, l: ShutLabel, w: WorkerId)
    requires Good(s) && Awaits(s, w) && l != Choose(w) && ShutNext(s, l).Some?
    ensures Awaits(ShutNext(s, l).value, w)
  {
    ShutGoesOnward(s, l);
    match l
    case StepTask =>
      TaskStopIsNarrow(s);
      MiddleHasNoOutcome(s);
      TaskKeepsAwaiting(s, w);
    case StepWorker =>
      WorkerStopChanges(s);
      MiddleHasNoOutcome(s);
      VisitKeepsAwaiting(s, w);
    case StepQueue =>
      MiddleHasNoOutcome(s);
      QueueKeepsAwaiting(s, w);
    case _ =>
      RestKeepsTasks(s, l);
      if NotYet(s.ctl.shut, w) {
        RestKeepsAwaiting(s, l, w);
      } else {
        AbortedStays(s, l);
      }
  }

  lemma OtherKeepsAwaiting(s: Pool, l: Label, w: WorkerId)
    requires Awaits(s, w) && (l.OfTask? || l.ParentClose?) && Next(s, l).Some?
    ensures Awaits(Next(s, l).value, w)
  {
  }

  lemma WorkerKeepsAwaiting(s: Pool, v: WorkerId, l: WorkerLabel, w: WorkerId)
    requires Awaits(s, w) && WorkerNext(s, v, l).Some?
    ensures Awaits(WorkerNext(s, v, l).value, w)
  {
    WorkerKeepsLifeCycle(s, v, l);
    WorkerKeepsNumber(s, v, l);
  }

  lemma WorkerKeepsNumber(s: Pool, v: WorkerId, l: WorkerLabel)
    requires WorkerNext(s, v, l).Some?
    ensures |WorkerNext(s, v, l).value.workers| == |s.workers|
  {
  }

  lemma AwaitStep(s: Pool, l: Label, w: WorkerId)
    requires Good(s) && Awaits(s, w) && l != Shut(Choose(w)) && Next(s, l).Some?
    ensures Awaits(Next(s, l).value, w)
  {
    match l
    case Shut(sl) => ShutKeepsAwaiting(s, sl, w);
    case Runner(rl) => RunnerKeepsAwaiting(s, rl, w);
    case OfWorker(v, wl) => WorkerKeepsAwaiting(s, v, wl, w);
    case OfClient(c, cl) => ClientShape(s, c, cl);
    case _ => OtherKeepsAwaiting(s, l, w);
  }

  lemma RunnerKeepsAwaiting(s: Pool, l: RunnerLabel, w: WorkerId)
    requires Awaits(s, w) && LockInv(s.ctl) && RunnerNext(s, l).Some?
    ensures Awaits(RunnerNext(s, l).value, w)
  {
  }

  lemma {:induction false} AwaitRun(s: Pool, labels: seq<Label>, w: WorkerId)
    requires Good(s) && Awaits(s, w) && Shut(Choose(w)) !in labels && Run(s, labels).Some?
    ensures Good(Run(s, labels).value) && Awaits(Run(s, labels).value, w)
    decreases |labels|
  {
    if labels != [] {
      assert labels[0] in labels;
      NextKeepsInv(s, labels[0]);
      NextKeepsShutdown(s, labels[0]);
      AwaitStep(s, labels[0], w);
      AwaitRun(Next(s, labels[0]).value, labels[1..], w);
    }
  }

  lemma AwaitBegins(s: Pool, l: Label, w: WorkerId)
    requires s.ctl.state.BgRunning? && BeginsStop(l) && Next(s, l).Some? && w < |s.workers|
    ensures Awaits(Next(s, l).value, w)
  {
  }

  /** A shutdown that has ended without being cut short has come to every worker. */
  lemma EveryWorkerHasItsTurn(s: Pool, l: Label, labels: seq<Label>, w: WorkerId)
    requires Reachable(s) && s.ctl.state.BgRunning? && BeginsStop(l) && Next(s, l).Some? && w < |s.workers|
    requires Run(Next(s, l).value, labels).Some?
    ensures var c := Run(Next(s, l).value, labels).value.ctl;
      c.outcome.Some? && c.outcome != Some(Aborted) ==> Shut(Choose(w)) in labels
  {
    ReachableIsGood(s);
    NextKeepsInv(s, l);
    NextKeepsShutdown(s, l);
    AwaitBegins(s, l, w);
    if Shut(Choose(w)) !in labels {
      AwaitRun(Next(s, l).value, labels, w);
      AwaitingHasNoOutcome(Run(Next(s, l).value, labels).value, w);
    }
  }

  lemma AwaitingHasNoOutcome(s: Pool, w: WorkerId)
    requires CtlInv(s.ctl, s.queue.closed, s.errs.closed) && Awaits(s, w)
    ensures s.ctl.outcome.Some? ==> s.ctl.outcome == Some(Aborted)
  {
  }
}
