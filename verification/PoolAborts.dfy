/**
Which shutdowns are cut short by a panic: none of LIGHT or SOFT; and of HARD,
when nobody outside stops an unfinished task, only those that lose a race
against a worker finishing its task.
*/
module PoolAborts {
  import opened Options
  import T = Tasks
  import L = TaskLife
  import opened PoolMachine
  import opened PoolInvariant
  import opened PoolShutSteps
  import opened PoolShutdown
  import opened PoolTheorems
  import opened PoolStop
  import opened PoolRuns

  predicate Unaborted(c: Control) {
    !Aborting(c) && c.outcome != Some(Aborted)
  }

  lemma RunnerKeepsUnaborted(s: Pool, l: RunnerLabel)
    requires Unaborted(s.ctl) && RunnerNext(s, l).Some?
    ensures Unaborted(RunnerNext(s, l).value.ctl)
  {
  }

  lemma EndKeepsUnaborted(s: Pool, l: ShutLabel)
    requires CtlInv(s.ctl, s.queue.closed, s.errs.closed) && Unaborted(s.ctl)
    requires Ending(l) && ShutNext(s, l).Some?
    ensures Unaborted(ShutNext(s, l).value.ctl)
  {
    match l
    case PollEnd => PollEndShape(s);
    case StepErrs =>
    case Finish =>
    case StepSignal => SignalShape(s);
  }

  lemma MiddleKeepsUnaborted(s: Pool, l: ShutLabel)
    requires CtlInv(s.ctl, s.queue.closed, s.errs.closed) && Unaborted(s.ctl)
    requires ShutNext(s, l).Some? && !Ending(l) && !Aborting(ShutNext(s, l).value.ctl)
    ensures Unaborted(ShutNext(s, l).value.ctl)
  {
    match l
    case StepTask => TaskStaysMiddle(s);
    case StepWorker => WorkerStaysMiddle(s);
    case StepQueue =>
    case Choose(w) => ChooseShape(s, w);
    case _ =>
  }

  /** A shutdown that is not cut short at this step goes on unaborted. */
  lemma StepKeepsUnaborted(s: Pool, l: Label)
    requires Good(s) && Unaborted(s.ctl) && Next(s, l).Some?
    requires l.Shut? ==> !Aborting(Next(s, l).value.ctl)
    ensures Unaborted(Next(s, l).value.ctl)
  {
    match l
    case Runner(rl) => RunnerKeepsUnaborted(s, rl);
    case OfWorker(w, wl) => WorkerKeepsLifeCycle(s, w, wl);
    case Shut(sl) =>
      if Ending(sl) {
        EndKeepsUnaborted(s, sl);
      } else {
        MiddleKeepsUnaborted(s, sl);
      }
    case _ =>
  }

  /** All workers have been visited. */
  predicate Late(shut: ShutPc) {
    || shut.Poll? || shut.CloseErrs? || shut.DrainErrs? || shut.Finishing?
    || shut.SignalRunner? || shut.CloseSignal? || shut.Unlocking? || shut.Off?
  }

  lemma PollEndIsLate(s: Pool)
    requires PollEndNext(s).Some?
    ensures Late(PollEndNext(s).value.ctl.shut) && !PollEndNext(s).value.ctl.shut.Off?
  {
  }

  lemma ErrsIsLate(s: Pool)
    requires ErrsNext(s).Some?
    ensures Late(ErrsNext(s).value.ctl.shut) && !ErrsNext(s).value.ctl.shut.Off?
  {
  }

  lemma FinishIsLate(s: Pool)
    requires FinishNext(s).Some?
    ensures Late(FinishNext(s).value.ctl.shut) && FinishNext(s).value.ctl.state.PoolShutdown?
  {
  }

  lemma SignalIsLate(s: Pool)
    requires SignalNext(s).Some?
    ensures Late(SignalNext(s).value.ctl.shut) && SignalNext(s).value.ctl.state == s.ctl.state
  {
    SignalShape(s);
  }

  lemma EndingIsLate(s: Pool, l: ShutLabel)
    requires Ending(l) && ShutNext(s, l).Some?
    ensures var c := ShutNext(s, l).value.ctl; Late(c.shut)
    ensures var c := ShutNext(s, l).value.ctl; c.shut.Off? ==> c.state.PoolShutdown? || (l.StepSignal? && c.state == s.ctl.state)
  {
    match l
    case PollEnd => PollEndIsLate(s);
    case StepErrs => ErrsIsLate(s);
    case Finish => FinishIsLate(s);
    case StepSignal => SignalIsLate(s);
  }

  // ----- LIGHT and SOFT -----

  predicate HasMode(shut: ShutPc) {
    || shut.CloseQueue? || shut.DrainQueue? || shut.TaskCheck? || shut.TaskSend? || shut.TaskClose?
    || shut.PickWorker? || shut.TestIdle? || shut.TestStop? || shut.WorkerSend? || shut.WorkerClose?
    || shut.WorkerTask? || shut.WorkerLoad?
  }

  predicate IsHard(shut: ShutPc) {
    HasMode(shut) && shut.mode.Hard?
  }

  /** The only shutdown there will be has begun, and it is not a hard one. */
  predicate Gentle(c: Control) {
    Rank(c.state) >= 2 && Unaborted(c) && !IsHard(c.shut)
  }

  lemma GentleTaskCheck(s: Pool)
    requires !IsHard(s.ctl.shut) && s.ctl.shut.TaskCheck? && TaskNext(s).Some?
    ensures !IsHard(TaskNext(s).value.ctl.shut)
  {
  }

  lemma GentleTaskStep(s: Pool)
    requires !IsHard(s.ctl.shut) && TaskNext(s).Some?
    ensures !IsHard(TaskNext(s).value.ctl.shut)
  {
    if s.ctl.shut.TaskCheck? {
      GentleTaskCheck(s);
    }
  }

  lemma GentleWorkerStep(s: Pool)
    requires !IsHard(s.ctl.shut) && WorkerStopNext(s).Some?
    ensures !IsHard(WorkerStopNext(s).value.ctl.shut)
  {
    if s.ctl.shut.TestIdle? || s.ctl.shut.TestStop? {
      GentleWorkerTest(s);
    } else if s.ctl.shut.WorkerSend? {
      GentleWorkerSend(s);
    } else if s.ctl.shut.WorkerClose? {
      GentleWorkerClose(s);
    } else {
      GentleWorkerTask(s);
    }
  }

  lemma GentleWorkerTest(s: Pool)
    requires !IsHard(s.ctl.shut) && (s.ctl.shut.TestIdle? || s.ctl.shut.TestStop?) && WorkerTestNext(s).Some?
    ensures !IsHard(WorkerTestNext(s).value.ctl.shut)
  {
  }

  lemma GentleWorkerSend(s: Pool)
    requires !IsHard(s.ctl.shut) && s.ctl.shut.WorkerSend? && WorkerSendNext(s).Some?
    ensures !IsHard(WorkerSendNext(s).value.ctl.shut)
  {
  }

  lemma GentleWorkerClose(s: Pool)
    requires !IsHard(s.ctl.shut) && s.ctl.shut.WorkerClose? && WorkerCloseNext(s).Some?
    ensures !IsHard(WorkerCloseNext(s).value.ctl.shut)
  {
  }

  lemma GentleWorkerTask(s: Pool)
    requires !IsHard(s.ctl.shut) && (s.ctl.shut.WorkerTask? || s.ctl.shut.WorkerLoad?) && WorkerTaskNext(s).Some?
    ensures !IsHard(WorkerTaskNext(s).value.ctl.shut)
  {
  }

  lemma GentleClose(s: Pool)
    requires !IsHard(s.ctl.shut) && s.ctl.shut.CloseQueue? && QueueNext(s).Some?
    ensures !IsHard(QueueNext(s).value.ctl.shut)
  {
  }

  lemma GentleDrain(s: Pool)
    requires !IsHard(s.ctl.shut) && s.ctl.shut.DrainQueue? && QueueNext(s).Some?
    ensures !IsHard(QueueNext(s).value.ctl.shut)
  {
  }

  lemma GentleQueueStep(s: Pool)
    requires !IsHard(s.ctl.shut) && QueueNext(s).Some?
    ensures !IsHard(QueueNext(s).value.ctl.shut)
  {
    if s.ctl.shut.CloseQueue? {
      GentleClose(s);
    } else {
      assert s.ctl.shut.DrainQueue?;
      GentleDrain(s);
    }
  }

  lemma GentleChoice(s: Pool, w: WorkerId)
    requires !IsHard(s.ctl.shut) && ChooseNext(s, w).Some?
    ensures !IsHard(ChooseNext(s, w).value.ctl.shut)
  {
  }

  lemma GentleShutStep(s: Pool, l: ShutLabel)
    requires Rank(s.ctl.state) >= 2 && !IsHard(s.ctl.shut) && ShutNext(s, l).Some?
    ensures !IsHard(ShutNext(s, l).value.ctl.shut)
  {
    if Ending(l) {
      EndingIsLate(s, l);
    } else {
      match l
      case StepTask => GentleTaskStep(s);
      case StepWorker => GentleWorkerStep(s);
      case StepQueue => GentleQueueStep(s);
      case Choose(w) => GentleChoice(s, w);
      case _ =>
    }
  }

  lemma GentleRunnerStep(s: Pool, l: RunnerLabel)
    requires Rank(s.ctl.state) >= 2 && !IsHard(s.ctl.shut) && RunnerNext(s, l).Some?
    ensures !IsHard(RunnerNext(s, l).value.ctl.shut)
  {
  }

  lemma GentleStep(s: Pool, l: Label)
    requires Good(s) && Gentle(s.ctl) && Next(s, l).Some?
    ensures Gentle(Next(s, l).value.ctl)
  {
    if l.Shut? && Aborting(Next(s, l).value.ctl) {
      AbortStep(s, l.sl);
    }
    StepKeepsUnaborted(s, l);
    match l
    case Shut(sl) =>
      LifeCycleStep(s, l);
      GentleShutStep(s, sl);
    case Runner(rl) =>
      LifeCycleStep(s, l);
      GentleRunnerStep(s, rl);
    case OfWorker(w, wl) => WorkerKeepsLifeCycle(s, w, wl);
    case _ =>
  }

  lemma {:induction false} GentleRun(s: Pool, labels: seq<Label>)
    requires Good(s) && Gentle(s.ctl) && Run(s, labels).Some?
    ensures Gentle(Run(s, labels).value.ctl)
    decreases |labels|
  {
    if labels != [] {
      NextKeepsInv(s, labels[0]);
      NextKeepsShutdown(s, labels[0]);
      GentleStep(s, labels[0]);
      GentleRun(Next(s, labels[0]).value, labels[1..]);
    }
  }

  lemma BgRunningIsUnaborted(s: Pool)
    requires Good(s) && s.ctl.state.BgRunning?
    ensures Unaborted(s.ctl) && s.ctl.shut.Off?
  {
  }

  /** In no continuation of Stop(LIGHT) or Stop(SOFT) is the shutdown cut short. */
  lemma GentleStopNeverAborts(s: Pool, mode: Mode, labels: seq<Label>)
    requires Reachable(s) && !mode.Hard? && ShutNext(s, CallStop(mode)).Some?
    requires Run(ShutNext(s, CallStop(mode)).value, labels).Some?
    ensures Unaborted(Run(ShutNext(s, CallStop(mode)).value, labels).value.ctl)
  {
    ReachableIsGood(s);
    BgRunningIsUnaborted(s);
    NextKeepsInv(s, Shut(CallStop(mode)));
    NextKeepsShutdown(s, Shut(CallStop(mode)));
    GentleRun(ShutNext(s, CallStop(mode)).value, labels);
  }

  // ----- Any shutdown, when nobody else calls Stop on a task -----

  /** The shutdown may still come to this worker's current task. */
  predicate Ahead(shut: ShutPc, state: PoolState, w: WorkerId) {
    match shut
    case Off => !state.PoolShutdown?
    case CloseQueue(_) => true
    case DrainQueue(_) => true
    case TaskCheck(_, _, resume) => resume.ResumeDrain? || w in resume.todo
    case TaskSend(_, _, resume) => resume.ResumeDrain? || w in resume.todo
    case TaskClose(_, _, resume) => resume.ResumeDrain? || w in resume.todo
    case PickWorker(_, todo) => w in todo
    case TestIdle(_, todo, v) => w in todo || w == v
    case TestStop(_, todo, v) => w in todo || w == v
    case WorkerSend(_, todo, v) => w in todo || w == v
    case WorkerClose(_, todo, v) => w in todo || w == v
    case WorkerTask(_, todo, v) => w in todo || w == v
    case WorkerLoad(_, todo, v) => w in todo || w == v
    case _ => false
  }

  /** A task in this place will not be stopped by the shutdown any more. */
  predicate Past(loc: Loc, shut: ShutPc, state: PoolState) {
    loc.Finished? || loc.Lost? || (loc.Held? && !Ahead(shut, state, loc.w))
  }

  predicate StopOf(s: Pool, t: TaskId)
    requires t in s.tasks && t in s.loc
  {
    s.tasks[t].stop.calls > 0 ==> Past(s.loc[t], s.ctl.shut, s.ctl.state)
  }

  /** The task the shutdown is about to stop has had no other Stop call. */
  predicate CurrentStop(shut: ShutPc, state: PoolState, tasks: map<TaskId, T.Task>, loc: map<TaskId, Loc>) {
    && (shut.WorkerTask? || shut.WorkerLoad? ==> shut.w !in shut.todo)
    && (shut.TaskCheck? && shut.resume.ResumeWorkers? && shut.t in tasks ==>
          shut.t in loc && tasks[shut.t].stop.calls == 0 && Past(loc[shut.t], shut, state))
    && (shut.TaskSend? && shut.t in tasks ==> tasks[shut.t].stop == T.StopSide(T.OPEN_EMPTY, 1, 0, 1))
    && (shut.TaskClose? && shut.t in tasks ==>
          !tasks[shut.t].stop.ch.closed && tasks[shut.t].stop.sending == 0 && tasks[shut.t].stop.closing == 1)
  }

  /** Every Stop call on an unfinished task is the shutdown's own, one for each task. */
  ghost predicate OneStopEach(s: Pool) {
    && s.loc.Keys == s.tasks.Keys
    && (forall t :: t in s.tasks ==> StopOf(s, t))
    && CurrentStop(s.ctl.shut, s.ctl.state, s.tasks, s.loc)
  }

  // How the other actors change places and stop channels.

  predicate PlaceMoves(a: Loc, b: Loc) {
    b == a || (a.Fresh? && b.Queued?) || (a.Queued? && b.Held?) || (a.Held? && (b.Finished? || b.Lost?))
  }

  predicate StopMoves(a: T.StopSide, b: T.StopSide) {
    b == a || (T.Receivable(a.ch) && b == a.(ch := T.Take(a.ch)))
  }

  ghost predicate Undisturbed(s: Pool, n: Pool) {
    && n.ctl == s.ctl && n.tasks.Keys == s.tasks.Keys && n.loc.Keys == s.loc.Keys
    && (forall t :: t in s.loc ==> PlaceMoves(s.loc[t], n.loc[t]))
    && (forall t :: t in s.tasks ==> StopMoves(s.tasks[t].stop, n.tasks[t].stop))
  }

  lemma UndisturbedKeepsStops(s: Pool, n: Pool)
    requires OneStopEach(s) && Undisturbed(s, n)
    ensures OneStopEach(n)
  {
    forall t | t in n.tasks
      ensures StopOf(n, t)
    {
      assert StopOf(s, t) && PlaceMoves(s.loc[t], n.loc[t]) && StopMoves(s.tasks[t].stop, n.tasks[t].stop);
    }
    var shut := s.ctl.shut;
    if (shut.TaskCheck? || shut.TaskSend? || shut.TaskClose?) && shut.t in s.tasks {
      assert PlaceMoves(s.loc[shut.t], n.loc[shut.t]) && StopMoves(s.tasks[shut.t].stop, n.tasks[shut.t].stop);
    }
  }

  lemma ProcessMovesStop(t: T.Task, p: T.ProcessLabel)
    requires T.ProcessStep(t, p).Some?
    ensures StopMoves(t.stop, T.ProcessStep(t, p).value.stop)
  {
  }

  lemma ProcessIsUndisturbing(s: Pool, w: WorkerId, l: WorkerLabel)
    requires w < |s.workers| && ProcessNext(s, w, l).Some?
    ensures Undisturbed(s, ProcessNext(s, w, l).value)
  {
    if l.InTask? {
      ProcessMovesStop(s.tasks[s.workers[w].pc.t], l.p);
    }
  }

  lemma MoveIsUndisturbing(s: Pool, w: WorkerId, l: WorkerLabel)
    requires QueueInv(s.queue.items, s.loc) && HoldInv(s.workers, s.loc) && w < |s.workers| && MoveNext(s, w, l).Some?
    ensures Undisturbed(s, MoveNext(s, w, l).value)
  {
    if l.TakeTask? {
      assert s.loc[s.queue.items[0]] == Queued;
    } else {
      assert HeldTask(s.workers[w].pc) == Some(s.workers[w].pc.t);
    }
  }

  lemma WorkerIsUndisturbing(s: Pool, w: WorkerId, l: WorkerLabel)
    requires QueueInv(s.queue.items, s.loc) && HoldInv(s.workers, s.loc) && WorkerNext(s, w, l).Some?
    ensures Undisturbed(s, WorkerNext(s, w, l).value)
  {
    if l.TakeTask? || l.LosePanic? || l.ClearTask? {
      MoveIsUndisturbing(s, w, l);
    } else if l.EnterTask? || l.InTask? || l.LeaveTask? {
      ProcessIsUndisturbing(s, w, l);
    }
  }

  lemma ClientIsUndisturbing(s: Pool, c: ClientId, l: ClientLabel)
    requires ClientsInv(s) && s.loc.Keys == s.tasks.Keys && ClientNext(s, c, l).Some?
    ensures Undisturbed(s, ClientNext(s, c, l).value)
  {
    var k := s.clients[c];
    assert ClientInv(k);
    if k.i < |k.tasks| && k.tasks[k.i].Some? {
      assert OwnerInv(s, k.tasks[k.i].value);
    }
  }

  /** Steps outside the pool other than a new Stop call; the shutdown's own call is not theirs to advance. */
  lemma OutsideKeepsStops(s: Pool, t: TaskId, o: T.OutsideLabel)
    requires OneStopEach(s) && !o.StopCheck? && Next(s, OfTask(t, o)).Some?
    ensures OneStopEach(Next(s, OfTask(t, o)).value)
  {
    var n := Next(s, OfTask(t, o)).value;
    assert n.tasks[t].stop.calls == s.tasks[t].stop.calls;
    forall x | x in n.tasks
      ensures StopOf(n, x)
    {
      assert StopOf(s, x);
    }
  }

  lemma RunnerKeepsStops(s: Pool, l: RunnerLabel)
    requires LockInv(s.ctl) && OneStopEach(s) && RunnerNext(s, l).Some?
    ensures OneStopEach(RunnerNext(s, l).value)
  {
    var n := RunnerNext(s, l).value;
    forall t | t in n.tasks
      ensures StopOf(n, t)
    {
      assert StopOf(s, t);
    }
  }

  // The shutdown's own steps.

  /** The shutdown goes on to a point from which it reaches no more workers than before. */
  lemma AdvanceKeepsStops(s: Pool, n: Pool)
    requires OneStopEach(s) && n.tasks == s.tasks && n.loc.Keys == s.loc.Keys
    requires forall t :: t in s.loc ==> n.loc[t] == s.loc[t] || s.loc[t].Queued?
    requires forall w: WorkerId :: Ahead(n.ctl.shut, n.ctl.state, w) ==> Ahead(s.ctl.shut, s.ctl.state, w)
    requires CurrentStop(n.ctl.shut, n.ctl.state, n.tasks, n.loc)
    ensures OneStopEach(n)
  {
    forall t | t in n.tasks
      ensures StopOf(n, t)
    {
      assert StopOf(s, t);
    }
  }

  lemma QueueKeepsStops(s: Pool)
    requires QueueInv(s.queue.items, s.loc) && OneStopEach(s) && QueueNext(s).Some?
    ensures OneStopEach(QueueNext(s).value)
  {
    if s.ctl.shut.DrainQueue? && s.queue.items != [] {
      assert s.loc[s.queue.items[0]] == Queued;
    }
    AdvanceKeepsStops(s, QueueNext(s).value);
  }

  lemma ChooseKeepsStops(s: Pool, w: WorkerId)
    requires OneStopEach(s) && ChooseNext(s, w).Some?
    ensures OneStopEach(ChooseNext(s, w).value)
  {
    AdvanceKeepsStops(s, ChooseNext(s, w).value);
  }

  lemma WorkerTestKeepsOneStop(s: Pool)
    requires ChannelsInv(s.ctl, s.workers) && OneStopEach(s)
    requires (s.ctl.shut.TestIdle? || s.ctl.shut.TestStop?) && WorkerTestNext(s).Some?
    ensures OneStopEach(WorkerTestNext(s).value)
  {
    AdvanceKeepsStops(s, WorkerTestNext(s).value);
  }

  lemma WorkerSendKeepsStops(s: Pool)
    requires ChannelsInv(s.ctl, s.workers) && OneStopEach(s) && s.ctl.shut.WorkerSend? && WorkerSendNext(s).Some?
    ensures OneStopEach(WorkerSendNext(s).value)
  {
    AdvanceKeepsStops(s, WorkerSendNext(s).value);
  }

  lemma WorkerCloseKeepsStops(s: Pool)
    requires ChannelsInv(s.ctl, s.workers) && OneStopEach(s) && s.ctl.shut.WorkerClose? && WorkerCloseNext(s).Some?
    ensures OneStopEach(WorkerCloseNext(s).value)
  {
    AdvanceKeepsStops(s, WorkerCloseNext(s).value);
  }

  lemma WorkerTaskKeepsStops(s: Pool)
    requires WorkersInv(s.workers, s.errs.items, s.ctl.runner) && HoldInv(s.workers, s.loc)
    requires OneStopEach(s) && (s.ctl.shut.WorkerTask? || s.ctl.shut.WorkerLoad?) && WorkerTaskNext(s).Some?
    ensures OneStopEach(WorkerTaskNext(s).value)
  {
    var w := s.ctl.shut.w;
    assert WorkerInv(w, s.workers[w], s.errs.items, s.ctl.runner);
    if s.workers[w].task.Some? {
      var t := s.workers[w].task.value;
      assert HeldTask(s.workers[w].pc) == Some(t) && s.loc[t] == Held(w);
      assert StopOf(s, t);
    }
    AdvanceKeepsStops(s, WorkerTaskNext(s).value);
  }

  /** Whoever is drained is ready, so Task.Stop does nothing to it. */
  lemma DrainedIsNotStoppable(s: Pool)
    requires StopsInv(s.ctl.shut, s.tasks, s.loc) && TasksInv(s.tasks, s.loc, s.workers)
    requires s.ctl.shut.TaskCheck? && s.ctl.shut.resume.ResumeDrain?
    ensures s.ctl.shut.t in s.tasks && s.tasks[s.ctl.shut.t].state.Ready?
  {
    assert PlaceInv(s.tasks[s.ctl.shut.t], s.loc[s.ctl.shut.t], s.workers);
  }

  lemma TaskCheckKeepsStops(s: Pool)
    requires StopsInv(s.ctl.shut, s.tasks, s.loc) && TasksInv(s.tasks, s.loc, s.workers)
    requires OneStopEach(s) && s.ctl.shut.TaskCheck? && TaskNext(s).Some?
    ensures OneStopEach(TaskNext(s).value)
  {
    var n, t := TaskNext(s).value, s.ctl.shut.t;
    if s.ctl.shut.resume.ResumeDrain? {
      DrainedIsNotStoppable(s);
    }
    if T.Stoppable(s.tasks[t].state) {
      assert L.TaskInv(s.tasks[t]);
      forall x | x in n.tasks
        ensures StopOf(n, x)
      {
        assert StopOf(s, x);
      }
    } else {
      AdvanceKeepsStops(s, n);
    }
  }

  lemma TaskSignalKeepsStops(s: Pool)
    requires StopsInv(s.ctl.shut, s.tasks, s.loc)
    requires OneStopEach(s) && (s.ctl.shut.TaskSend? || s.ctl.shut.TaskClose?) && TaskNext(s).Some?
    ensures OneStopEach(TaskNext(s).value) && !Aborting(TaskNext(s).value.ctl)
  {
    var n := TaskNext(s).value;
    assert n.tasks[s.ctl.shut.t].stop.calls == s.tasks[s.ctl.shut.t].stop.calls;
    forall x | x in n.tasks
      ensures StopOf(n, x)
    {
      assert StopOf(s, x);
    }
  }

  lemma EndingKeepsStops(s: Pool, l: ShutLabel)
    requires CtlInv(s.ctl, s.queue.closed, s.errs.closed) && OneStopEach(s) && Ending(l) && ShutNext(s, l).Some?
    ensures OneStopEach(ShutNext(s, l).value)
  {
    EndingKeepsClients(s, l);
    EndingIsNotAhead(s, l);
    AdvanceKeepsStops(s, ShutNext(s, l).value);
  }

  lemma EndingIsNotAhead(s: Pool, l: ShutLabel)
    requires CtlInv(s.ctl, s.queue.closed, s.errs.closed) && Ending(l) && ShutNext(s, l).Some?
    ensures var c := ShutNext(s, l).value.ctl;
      Late(c.shut) && forall w: WorkerId :: !Ahead(c.shut, c.state, w)
  {
    EndingIsLate(s, l);
    if l.StepSignal? {
      SignalEndsStop(s);
    }
    LateIsNotAhead(ShutNext(s, l).value.ctl);
  }

  lemma LateIsNotAhead(c: Control)
    requires Late(c.shut) && (c.shut.Off? ==> c.state.PoolShutdown?)
    ensures forall w: WorkerId :: !Ahead(c.shut, c.state, w)
  {
  }

  lemma SignalEndsStop(s: Pool)
    requires CtlInv(s.ctl, s.queue.closed, s.errs.closed) && SignalNext(s).Some?
    ensures s.ctl.state.PoolShutdown?
  {
    SignalShape(s);
  }

  lemma BoundaryKeepsStops(s: Pool, l: ShutLabel)
    requires CtlInv(s.ctl, s.queue.closed, s.errs.closed) && OneStopEach(s) && ShutNext(s, l).Some?
    requires l.CallStop? || l.PollTimeout? || l.ChosenAll? || l.PollWorker?
    ensures OneStopEach(ShutNext(s, l).value)
  {
    AdvanceKeepsStops(s, ShutNext(s, l).value);
  }

  lemma ShutKeepsStops(s: Pool, l: ShutLabel)
    requires Good(s) && OneStopEach(s) && ShutNext(s, l).Some?
    ensures OneStopEach(ShutNext(s, l).value)
  {
    if Ending(l) {
      EndingKeepsStops(s, l);
    } else {
      match l
      case StepQueue => QueueKeepsStops(s);
      case Choose(w) => ChooseKeepsStops(s, w);
      case StepTask =>
        if s.ctl.shut.TaskCheck? {
          TaskCheckKeepsStops(s);
        } else {
          TaskSignalKeepsStops(s);
        }
      case StepWorker =>
        if s.ctl.shut.TestIdle? || s.ctl.shut.TestStop? {
          WorkerTestKeepsOneStop(s);
        } else if s.ctl.shut.WorkerSend? {
          WorkerSendKeepsStops(s);
        } else if s.ctl.shut.WorkerClose? {
          WorkerCloseKeepsStops(s);
        } else {
          WorkerTaskKeepsStops(s);
        }
      case _ => BoundaryKeepsStops(s, l);
    }
  }

  lemma StepKeepsStops(s: Pool, l: Label)
    requires Good(s) && OneStopEach(s) && !OutsideStop(l) && Next(s, l).Some?
    ensures OneStopEach(Next(s, l).value)
  {
    match l
    case Runner(rl) => RunnerKeepsStops(s, rl);
    case Shut(sl) => ShutKeepsStops(s, sl);
    case OfWorker(w, wl) =>
      WorkerIsUndisturbing(s, w, wl);
      UndisturbedKeepsStops(s, Next(s, l).value);
    case OfClient(c, cl) =>
      ClientIsUndisturbing(s, c, cl);
      UndisturbedKeepsStops(s, Next(s, l).value);
    case OfTask(t, o) => OutsideKeepsStops(s, t, o);
    case ParentClose => UndisturbedKeepsStops(s, Next(s, l).value.(ctl := s.ctl));
  }

  lemma {:induction false} OneStopRun(s: Pool, labels: seq<Label>)
    requires Good(s) && OneStopEach(s) && Run(s, labels).Some?
    requires forall l <- labels :: !OutsideStop(l)
    ensures Good(Run(s, labels).value) && OneStopEach(Run(s, labels).value)
    decreases |labels|
  {
    if labels != [] {
      var l := labels[0];
      assert l in labels && forall x <- labels[1..] :: x in labels;
      NextKeepsInv(s, l);
      NextKeepsShutdown(s, l);
      StepKeepsStops(s, l);
      OneStopRun(Next(s, l).value, labels[1..]);
    }
  }

  /** No task that a Stop call has been made on is still to be finished. */
  ghost predicate NoStopPending(s: Pool) {
    forall t :: t in s.tasks && t in s.loc && s.tasks[t].stop.calls > 0 ==> s.loc[t].Finished? || s.loc[t].Lost?
  }

  lemma AbortStepUndisturbed(s: Pool, l: Label)
    requires Good(s) && OneStopEach(s) && Next(s, l).Some?
    requires Aborting(Next(s, l).value.ctl) && !Aborting(s.ctl)
    ensures TaskVanished(s)
  {
    if l.Shut? {
      if l.sl.StepTask? && (s.ctl.shut.TaskSend? || s.ctl.shut.TaskClose?) {
        TaskSignalKeepsStops(s);
      } else {
        AbortStep(s, l.sl);
      }
    } else {
      OthersNeverAbort(s, l);
    }
  }

  /** From a running pool on, as long as nobody outside stops a task, whether Stop or the closed parent
      context begins it and whatever its mode, a shutdown is cut short at no other step than the one that
      finds a worker's task gone between its two reads. */
  lemma UndisturbedAbortsByRaceOnly(s: Pool, labels: seq<Label>, l: Label)
    requires Reachable(s) && s.ctl.state.BgRunning? && NoStopPending(s)
    requires Run(s, labels).Some? && forall x <- labels :: !OutsideStop(x)
    requires var m := Run(s, labels).value;
      Next(m, l).Some? && Aborting(Next(m, l).value.ctl) && !Aborting(m.ctl)
    ensures TaskVanished(Run(s, labels).value)
  {
    ReachableIsGood(s);
    BgRunningIsUnaborted(s);
    OneStopRun(s, labels);
    AbortStepUndisturbed(Run(s, labels).value, l);
  }
}
