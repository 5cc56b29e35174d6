/** The steps of Stop and shutdownUnsafe, and those outside the pool's goroutines, keep the invariant. */
module PoolShutSteps {
  import T = Tasks
  import L = TaskLife
  import opened PoolMachine
  import opened PoolInvariant
  import opened PoolFrames
  import opened PoolSteps
  import opened PoolWorkerSteps

  // ----- Control -----

  /** The shutdown is between closing the task queue and closing the error channel. */
  predicate Middle(shut: ShutPc) {
    || shut.DrainQueue? || shut.TaskCheck? || shut.TaskSend? || shut.TaskClose?
    || shut.PickWorker? || shut.TestIdle? || shut.TestStop? || shut.WorkerSend? || shut.WorkerClose?
    || shut.WorkerTask? || shut.WorkerLoad? || shut.Poll?
  }

  lemma MiddleKeepsCtl(c: Control, shut: ShutPc, queueClosed: bool, errsClosed: bool)
    requires CtlInv(c, queueClosed, errsClosed) && Middle(c.shut)
    requires Middle(shut) || shut == Finishing(Aborted)
    ensures CtlInv(c.(shut := shut), queueClosed, errsClosed)
  {
  }

  lemma TaskStaysMiddle(s: Pool)
    requires TaskNext(s).Some?
    ensures var n := TaskNext(s).value;
      && n.ctl == s.ctl.(shut := n.ctl.shut) && Middle(s.ctl.shut)
      && (Middle(n.ctl.shut) || n.ctl.shut == Finishing(Aborted))
  {
  }

  lemma WorkerStaysMiddle(s: Pool)
    requires WorkerStopNext(s).Some?
    ensures var n := WorkerStopNext(s).value;
      && n.ctl == s.ctl.(shut := n.ctl.shut) && Middle(s.ctl.shut)
      && (Middle(n.ctl.shut) || n.ctl.shut == Finishing(Aborted))
  {
  }

  lemma QueueKeepsCtl(s: Pool)
    requires CtlInv(s.ctl, s.queue.closed, s.errs.closed) && QueueNext(s).Some?
    ensures var n := QueueNext(s).value; CtlInv(n.ctl, n.queue.closed, n.errs.closed)
    ensures QueueNext(s).value.ctl.runner == s.ctl.runner
  {
    if s.ctl.shut.DrainQueue? {
      MiddleKeepsCtl(s.ctl, QueueNext(s).value.ctl.shut, s.queue.closed, s.errs.closed);
    }
  }

  /** A step of the shutdown that touches the control and the error channel only. */
  predicate LittleChange(s: Pool, n: Pool) {
    && n == s.(ctl := n.ctl, errs := n.errs)
    && (n.errs.items == s.errs.items || (s.errs.items != [] && n.errs.items == s.errs.items[1..]))
    && (n.ctl.runner == s.ctl.runner || (s.ctl.runner.InShutdown? && n.ctl.runner.Returning?))
  }

  lemma ChooseShape(s: Pool, w: WorkerId)
    requires ChooseNext(s, w).Some?
    ensures var n := ChooseNext(s, w).value;
      && n == s.(ctl := s.ctl.(shut := n.ctl.shut)) && Middle(s.ctl.shut) && Middle(n.ctl.shut)
  {
  }

  lemma ChooseKeepsCtl(s: Pool, w: WorkerId)
    requires CtlInv(s.ctl, s.queue.closed, s.errs.closed) && ChooseNext(s, w).Some?
    ensures var n := ChooseNext(s, w).value; CtlInv(n.ctl, n.queue.closed, n.errs.closed) && LittleChange(s, n)
  {
    ChooseShape(s, w);
    MiddleKeepsCtl(s.ctl, ChooseNext(s, w).value.ctl.shut, s.queue.closed, s.errs.closed);
  }

  lemma PollEndShape(s: Pool)
    requires PollEndNext(s).Some?
    ensures var n := PollEndNext(s).value;
      && n == s.(ctl := s.ctl.(shut := n.ctl.shut)) && Middle(s.ctl.shut)
      && (Middle(n.ctl.shut) || n.ctl.shut == CloseErrs(false))
  {
  }

  lemma PollEndKeepsCtl(s: Pool)
    requires CtlInv(s.ctl, s.queue.closed, s.errs.closed) && PollEndNext(s).Some?
    ensures var n := PollEndNext(s).value; CtlInv(n.ctl, n.queue.closed, n.errs.closed) && LittleChange(s, n)
  {
    var n := PollEndNext(s).value;
    PollEndShape(s);
    if Middle(n.ctl.shut) {
      MiddleKeepsCtl(s.ctl, n.ctl.shut, s.queue.closed, s.errs.closed);
    } else {
      MiddleEndsInCtl(s.ctl, s.queue.closed, s.errs.closed);
    }
  }

  lemma MiddleEndsInCtl(c: Control, queueClosed: bool, errsClosed: bool)
    requires CtlInv(c, queueClosed, errsClosed) && Middle(c.shut)
    ensures CtlInv(c.(shut := CloseErrs(false)), queueClosed, errsClosed)
  {
  }

  lemma ErrsKeepsCtl(s: Pool)
    requires CtlInv(s.ctl, s.queue.closed, s.errs.closed) && ErrsNext(s).Some?
    ensures var n := ErrsNext(s).value; CtlInv(n.ctl, n.queue.closed, n.errs.closed) && LittleChange(s, n)
  {
  }

  lemma FinishKeepsCtl(s: Pool)
    requires CtlInv(s.ctl, s.queue.closed, s.errs.closed) && FinishNext(s).Some?
    ensures var n := FinishNext(s).value; CtlInv(n.ctl, n.queue.closed, n.errs.closed) && LittleChange(s, n)
  {
  }

  /** One of the last three steps of Stop. */
  predicate SignalStep(c: Control, d: Control) {
    || (c.shut.SignalRunner? && d == c.(stopCh := T.Chan(1, false), shut := CloseSignal))
    || (c.shut.CloseSignal? && d == c.(stopCh := c.stopCh.(closed := true), shut := Unlocking))
    || (c.shut.Unlocking? && d == c.(shut := Off, lock := Free))
  }

  lemma SignalShape(s: Pool)
    requires SignalNext(s).Some?
    ensures var n := SignalNext(s).value; n == s.(ctl := n.ctl) && SignalStep(s.ctl, n.ctl)
  {
  }

  lemma SignalStepKeepsCtl(c: Control, d: Control, queueClosed: bool, errsClosed: bool)
    requires CtlInv(c, queueClosed, errsClosed) && SignalStep(c, d)
    ensures CtlInv(d, queueClosed, errsClosed) && d.runner == c.runner
  {
  }

  lemma SignalKeepsCtl(s: Pool)
    requires CtlInv(s.ctl, s.queue.closed, s.errs.closed) && SignalNext(s).Some?
    ensures var n := SignalNext(s).value; CtlInv(n.ctl, n.queue.closed, n.errs.closed) && LittleChange(s, n)
  {
    SignalShape(s);
    SignalStepKeepsCtl(s.ctl, SignalNext(s).value.ctl, s.queue.closed, s.errs.closed);
  }

  lemma BoundaryKeepsCtl(s: Pool, l: ShutLabel)
    requires CtlInv(s.ctl, s.queue.closed, s.errs.closed)
    requires (l.CallStop? || l.PollTimeout? || l.ChosenAll? || l.PollWorker?) && ShutNext(s, l).Some?
    ensures var n := ShutNext(s, l).value; CtlInv(n.ctl, n.queue.closed, n.errs.closed) && LittleChange(s, n)
  {
    if l.ChosenAll? || l.PollWorker? {
      MiddleKeepsCtl(s.ctl, ShutNext(s, l).value.ctl.shut, s.queue.closed, s.errs.closed);
    }
  }

  /** Steps that read or write neither the task queue nor a task nor a worker. */
  predicate Plain(l: ShutLabel) {
    !l.StepQueue? && !l.StepTask? && !l.StepWorker?
  }

  lemma PlainKeepsCtl(s: Pool, l: ShutLabel)
    requires CtlInv(s.ctl, s.queue.closed, s.errs.closed) && Plain(l) && ShutNext(s, l).Some?
    ensures var n := ShutNext(s, l).value; CtlInv(n.ctl, n.queue.closed, n.errs.closed) && LittleChange(s, n)
  {
    match l
    case Choose(w) => ChooseKeepsCtl(s, w);
    case PollEnd => PollEndKeepsCtl(s);
    case StepErrs => ErrsKeepsCtl(s);
    case Finish => FinishKeepsCtl(s);
    case StepSignal => SignalKeepsCtl(s);
    case _ => BoundaryKeepsCtl(s, l);
  }

  // ----- Steps that touch the control and the error channel only -----

  lemma ControlKeepsInv(s: Pool, n: Pool)
    requires Inv(s) && LittleChange(s, n) && CtlInv(n.ctl, n.queue.closed, n.errs.closed)
    ensures Inv(n)
  {
    ControlKeepsWorkers(s.workers, s.errs.items, n.errs.items, |s.workers|, s.ctl.runner, n.ctl.runner);
    ClientsCarryOver(s, n);
  }

  lemma PlainKeepsInv(s: Pool, l: ShutLabel)
    requires Inv(s) && Plain(l) && ShutNext(s, l).Some?
    ensures Inv(ShutNext(s, l).value)
  {
    PlainKeepsCtl(s, l);
    ControlKeepsInv(s, ShutNext(s, l).value);
  }

  // ----- The task queue -----

  lemma DrainKeepsPlaces(s: Pool, t: TaskId)
    requires QueueInv(s.queue.items, s.loc) && HoldInv(s.workers, s.loc) && TasksInv(s.tasks, s.loc, s.workers)
    requires s.queue.items != [] && t == s.queue.items[0]
    ensures QueueInv(s.queue.items[1..], s.loc[t := Discarded]) && HoldInv(s.workers, s.loc[t := Discarded])
    ensures TasksInv(s.tasks, s.loc[t := Discarded], s.workers)
  {
    var loc := s.loc[t := Discarded];
    forall x | x in loc && loc[x] == Queued
      ensures x in s.queue.items[1..]
    {
      assert x in s.queue.items && x != t;
    }
    forall x | x in s.tasks
      ensures PlaceInv(s.tasks[x], loc[x], s.workers)
    {
      assert PlaceInv(s.tasks[x], s.loc[x], s.workers);
    }
  }

  lemma QueueKeepsInv(s: Pool)
    requires Inv(s) && QueueNext(s).Some?
    ensures Inv(QueueNext(s).value)
  {
    QueueKeepsCtl(s);
    if s.ctl.shut.DrainQueue? && s.queue.items != [] {
      DrainKeepsPlaces(s, s.queue.items[0]);
    }
    ClientsCarryOver(s, QueueNext(s).value);
  }

  // ----- Stop calls on tasks and workers -----

  predicate StaysClosed(a: T.Chan, b: T.Chan) {
    a.closed ==> b == a
  }

  lemma StoppedTaskKeepsStage(t: T.Task, u: T.Task)
    requires L.TaskInv(t) && L.RecordInv(t) && u == t.(stop := u.stop) && L.StopInv(u.stop)
    requires StaysClosed(t.stop.ch, u.stop.ch)
    ensures L.TaskInv(u) && L.RecordInv(u) && SameStage(t, u)
  {
  }

  lemma TaskStopChanges(s: Pool)
    requires TaskNext(s).Some? && s.ctl.shut.t in s.tasks && L.StopInv(s.tasks[s.ctl.shut.t].stop)
    ensures var n := TaskNext(s).value; var t := s.ctl.shut.t;
      && t in s.tasks && n == s.(ctl := n.ctl, tasks := n.tasks) && n.tasks.Keys == s.tasks.Keys
      && n.tasks == s.tasks[t := s.tasks[t].(stop := n.tasks[t].stop)] && L.StopInv(n.tasks[t].stop)
      && StaysClosed(s.tasks[t].stop.ch, n.tasks[t].stop.ch)
  {
    var n := TaskNext(s).value;
    var t := s.ctl.shut.t;
    assert n.tasks == s.tasks[t := s.tasks[t].(stop := n.tasks[t].stop)];
  }

  lemma TaskStopKeepsInv(s: Pool)
    requires Inv(s) && TaskNext(s).Some?
    ensures Inv(TaskNext(s).value)
  {
    var n := TaskNext(s).value;
    var t := s.ctl.shut.t;
    TaskStaysMiddle(s);
    MiddleKeepsCtl(s.ctl, n.ctl.shut, s.queue.closed, s.errs.closed);
    TaskStopChanges(s);
    StoppedTaskKeepsStage(s.tasks[t], n.tasks[t]);
    OutsideKeepsPool(s, t, n.tasks[t]);
    ClientsCarryOver(s.(tasks := n.tasks), n);
  }

  lemma WorkerStopChanges(s: Pool)
    requires WorkerStopNext(s).Some?
    ensures var n := WorkerStopNext(s).value; var w := s.ctl.shut.w;
      && w < |s.workers| == |n.workers| && n == s.(ctl := n.ctl, workers := s.workers[w := n.workers[w]])
      && n.workers[w] == s.workers[w].(stop := n.workers[w].stop)
      && (s.workers[w].stop.Some? ==> n.workers[w].stop.Some?)
  {
    if s.ctl.shut.WorkerSend? {
    } else if s.ctl.shut.WorkerClose? {
    } else {
      assert WorkerStopNext(s).value.workers == s.workers;
    }
  }

  lemma WorkerStopKeepsInv(s: Pool)
    requires Inv(s) && WorkerStopNext(s).Some?
    ensures Inv(WorkerStopNext(s).value)
  {
    var n := WorkerStopNext(s).value;
    var w := s.ctl.shut.w;
    WorkerStaysMiddle(s);
    MiddleKeepsCtl(s.ctl, n.ctl.shut, s.queue.closed, s.errs.closed);
    WorkerStopChanges(s);
    assert WorkerInv(w, s.workers[w], s.errs.items, s.ctl.runner);
    ReplaceWorker(s, s.(workers := n.workers), w, n.workers[w]);
    ClientsCarryOver(s, n);
  }

  lemma ShutKeepsInv(s: Pool, l: ShutLabel)
    requires Inv(s) && ShutNext(s, l).Some?
    ensures Inv(ShutNext(s, l).value)
  {
    match l
    case StepQueue => QueueKeepsInv(s);
    case StepTask => TaskStopKeepsInv(s);
    case StepWorker => WorkerStopKeepsInv(s);
    case _ => PlainKeepsInv(s, l);
  }

  // ----- Steps outside the pool, and the whole system -----

  lemma OutsideKeepsInv(s: Pool, t: TaskId, o: T.OutsideLabel)
    requires Inv(s) && Next(s, OfTask(t, o)).Some?
    ensures Inv(Next(s, OfTask(t, o)).value)
  {
    OutsideKeepsStage(s.tasks[t], o);
    OutsideKeepsPool(s, t, T.OutsideStep(s.tasks[t], o).value);
  }

  lemma ParentKeepsInv(s: Pool)
    requires Inv(s)
    ensures Inv(Next(s, ParentClose).value)
  {
    ClientsCarryOver(s, Next(s, ParentClose).value);
  }

  lemma NextKeepsInv(s: Pool, l: Label)
    requires Inv(s) && Next(s, l).Some?
    ensures Inv(Next(s, l).value)
  {
    match l
    case Runner(rl) => RunnerKeepsInv(s, rl);
    case Shut(sl) => ShutKeepsInv(s, sl);
    case OfWorker(w, wl) => WorkerKeepsInv(s, w, wl);
    case OfClient(c, cl) => ClientKeepsInv(s, c, cl);
    case OfTask(t, o) => OutsideKeepsInv(s, t, o);
    case ParentClose => ParentKeepsInv(s);
  }
}
