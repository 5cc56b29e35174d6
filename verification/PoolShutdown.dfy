/**
What a shutdown knows: the workers it has seen terminated stay so, the stop
channels it has still to signal are open and empty, and it stops tasks only in
the way its mode says.
*/
module PoolShutdown {
  import opened Options
  import T = Tasks
  import opened PoolMachine
  import opened PoolInvariant

  // ----- What the shutdown has seen and sent -----

  predicate TerminatedAt(workers: seq<Worker>, w: WorkerId) {
    w < |workers| && workers[w].state.Terminated?
  }

  ghost predicate AllTerminated(workers: seq<Worker>) {
    forall w: nat :: w < |workers| ==> TerminatedAt(workers, w)
  }

  predicate SeenAll(c: Control) {
    || c.shut == CloseErrs(false) || c.shut == DrainErrs(false) || c.shut == Finishing(Completed)
    || c.outcome == Some(Completed)
  }

  /** The workers a polling pass has found terminated, and all of them once the pass found no other. */
  ghost predicate PollInv(c: Control, workers: seq<Worker>) {
    && (c.shut.Poll? && !c.shut.waiting ==>
          forall w: nat :: w < |workers| && w !in c.shut.pending ==> TerminatedAt(workers, w))
    && (SeenAll(c) ==> AllTerminated(workers))
  }

  /** The shutdown has not come to this worker's stop channel yet. */
  predicate Unvisited(shut: ShutPc, state: PoolState, w: WorkerId) {
    match shut
    case Off => !state.PoolShutdown?
    case CloseQueue(_) => true
    case DrainQueue(_) => true
    case TaskCheck(_, _, resume) => resume.ResumeDrain? || w in resume.todo
    case TaskSend(_, _, resume) => resume.ResumeDrain? || w in resume.todo
    case TaskClose(_, _, resume) => resume.ResumeDrain? || w in resume.todo
    case PickWorker(_, todo) => w in todo
    case TestIdle(_, todo, v) => w in todo || w == v
    case TestStop(_, todo, v) => w in todo || w == v
    case WorkerSend(_, todo, v) => w in todo || w == v
    case WorkerClose(_, todo, v) => w in todo
    case WorkerTask(_, todo, v) => w in todo
    case WorkerLoad(_, todo, v) => w in todo
    case _ => false
  }

  ghost predicate ChannelsInv(c: Control, workers: seq<Worker>) {
    && (forall w: nat :: w < |workers| && Unvisited(c.shut, c.state, w) && workers[w].stop.Some? ==>
          workers[w].stop.value == T.OPEN_EMPTY)
    && (c.shut.TestIdle? || c.shut.TestStop? ==> c.shut.w !in c.shut.todo)
    && (c.shut.WorkerSend? ==> c.shut.w < |workers| && workers[c.shut.w].stop.Some? && c.shut.w !in c.shut.todo)
    && (c.shut.WorkerClose? ==>
          c.shut.w < |workers| && workers[c.shut.w].stop.Some? && !workers[c.shut.w].stop.value.closed
          && c.shut.w !in c.shut.todo)
  }

  /** The shutdown stops drained tasks, which are ready, and with HARD the workers' current tasks. */
  predicate StopsInv(shut: ShutPc, tasks: map<TaskId, T.Task>, loc: map<TaskId, Loc>) {
    && (shut.DrainQueue? ==> !shut.mode.Light?)
    && (shut.WorkerTask? || shut.WorkerLoad? ==> shut.mode.Hard?)
    && (shut.TaskCheck? ==> shut.t in tasks && (shut.resume.ResumeWorkers? ==> shut.mode.Hard?))
    && (shut.TaskCheck? && shut.resume.ResumeDrain? ==>
          shut.t in loc && loc[shut.t] == Discarded && !shut.mode.Light?)
    && (shut.TaskSend? ==> shut.t in tasks && shut.mode.Hard? && shut.resume.ResumeWorkers?
                           && tasks[shut.t].stop.sending > 0)
    && (shut.TaskClose? ==> shut.t in tasks && shut.mode.Hard? && shut.resume.ResumeWorkers?
                            && tasks[shut.t].stop.closing > 0)
  }

  ghost predicate ShutdownInv(s: Pool) {
    && PollInv(s.ctl, s.workers)
    && ChannelsInv(s.ctl, s.workers)
    && StopsInv(s.ctl.shut, s.tasks, s.loc)
  }

  // ----- Effects of the other actors -----

  /** The stop channel is left alone, made anew by the worker's run, or read by it. */
  predicate StopEvolves(a: Option<T.Chan>, b: Option<T.Chan>) {
    || b == a
    || b == Some(T.OPEN_EMPTY)
    || (a.Some? && T.Receivable(a.value) && b == Some(T.Take(a.value)))
  }

  predicate WorkerEvolves(k: Worker, u: Worker) {
    (k.state.Terminated? ==> u.state.Terminated?) && StopEvolves(k.stop, u.stop)
  }

  /** Everything the shutdown relies on survives such a change. */
  ghost predicate Harmless(s: Pool, n: Pool) {
    && n.ctl == s.ctl && |n.workers| == |s.workers|
    && (forall w: nat :: w < |s.workers| ==> WorkerEvolves(s.workers[w], n.workers[w]))
    && n.tasks.Keys == s.tasks.Keys && n.loc.Keys == s.loc.Keys
    && (forall t :: t in s.loc && s.loc[t] == Discarded ==> n.loc[t] == Discarded)
    && (s.ctl.shut.TaskSend? && s.ctl.shut.t in s.tasks && s.tasks[s.ctl.shut.t].stop.sending > 0 ==>
          n.tasks[s.ctl.shut.t].stop.sending > 0)
    && (s.ctl.shut.TaskClose? && s.ctl.shut.t in s.tasks && s.tasks[s.ctl.shut.t].stop.closing > 0 ==>
          n.tasks[s.ctl.shut.t].stop.closing > 0)
  }

  lemma HarmlessKeepsPolls(s: Pool, n: Pool)
    requires PollInv(s.ctl, s.workers) && Harmless(s, n)
    ensures PollInv(n.ctl, n.workers)
  {
    forall w: nat | w < |s.workers| && TerminatedAt(s.workers, w)
      ensures TerminatedAt(n.workers, w)
    {
      assert WorkerEvolves(s.workers[w], n.workers[w]);
    }
  }

  lemma HarmlessKeepsShutdown(s: Pool, n: Pool)
    requires ShutdownInv(s) && Harmless(s, n)
    ensures ShutdownInv(n)
  {
    HarmlessKeepsPolls(s, n);
    forall w: nat | w < |n.workers| && Unvisited(n.ctl.shut, n.ctl.state, w) && n.workers[w].stop.Some?
      ensures n.workers[w].stop.value == T.OPEN_EMPTY
    {
      assert WorkerEvolves(s.workers[w], n.workers[w]);
    }
    if n.ctl.shut.WorkerSend? || n.ctl.shut.WorkerClose? {
      assert WorkerEvolves(s.workers[n.ctl.shut.w], n.workers[n.ctl.shut.w]);
    }
  }

  lemma LocalEvolves(w: WorkerId, k: Worker, errs: seq<WorkerId>, runner: RunnerPc,
                     ctxLive: bool, queue: Fifo<TaskId>, l: WorkerLabel)
    requires WorkerInv(w, k, errs, runner) && LocalNext(ctxLive, queue, k, l).Some?
    ensures WorkerEvolves(k, LocalNext(ctxLive, queue, k, l).value)
  {
  }

  lemma WorkerIsHarmless(s: Pool, w: WorkerId, l: WorkerLabel)
    requires Inv(s) && WorkerNext(s, w, l).Some?
    ensures Harmless(s, WorkerNext(s, w, l).value)
  {
    var n := WorkerNext(s, w, l).value;
    assert WorkerInv(w, s.workers[w], s.errs.items, s.ctl.runner);
    if l.TakeTask? || l.LosePanic? || l.ClearTask? {
      MoveIsHarmless(s, w, l);
    } else if l.EnterTask? || l.InTask? || l.LeaveTask? {
      ProcessIsHarmless(s, w, l);
    } else if l.ReportTaken? || l.ReportState? || l.ReportPanic? {
    } else {
      LocalEvolves(w, s.workers[w], s.errs.items, s.ctl.runner, s.ctl.ctxLive, s.queue, l);
    }
  }

  lemma MoveIsHarmless(s: Pool, w: WorkerId, l: WorkerLabel)
    requires QueueInv(s.queue.items, s.loc) && HoldInv(s.workers, s.loc) && w < |s.workers|
    requires WorkerInv(w, s.workers[w], s.errs.items, s.ctl.runner) && MoveNext(s, w, l).Some?
    ensures Harmless(s, MoveNext(s, w, l).value)
  {
  }

  lemma ProcessKeepsStops(t: T.Task, p: T.ProcessLabel)
    requires T.ProcessStep(t, p).Some?
    ensures var u := T.ProcessStep(t, p).value;
      u.stop.sending == t.stop.sending && u.stop.closing == t.stop.closing
  {
  }

  lemma ProcessIsHarmless(s: Pool, w: WorkerId, l: WorkerLabel)
    requires w < |s.workers| && WorkerInv(w, s.workers[w], s.errs.items, s.ctl.runner)
    requires ProcessNext(s, w, l).Some?
    ensures Harmless(s, ProcessNext(s, w, l).value)
  {
    if l.InTask? {
      ProcessKeepsStops(s.tasks[s.workers[w].pc.t], l.p);
    }
  }

  lemma ClientIsHarmless(s: Pool, c: ClientId, l: ClientLabel)
    requires ClientsInv(s) && s.loc.Keys == s.tasks.Keys && ClientNext(s, c, l).Some?
    ensures Harmless(s, ClientNext(s, c, l).value)
  {
    var k := s.clients[c];
    assert ClientInv(k);
    if k.i < |k.tasks| && k.tasks[k.i].Some? {
      assert OwnerInv(s, k.tasks[k.i].value);
    }
  }

  lemma OutsideIsHarmless(s: Pool, t: TaskId, o: T.OutsideLabel)
    requires Next(s, OfTask(t, o)).Some?
    ensures Harmless(s, Next(s, OfTask(t, o)).value)
  {
  }

  // ----- The runner -----

  lemma RunnerKeepsShutdown(s: Pool, l: RunnerLabel)
    requires CtlInv(s.ctl, s.queue.closed, s.errs.closed) && ShutdownInv(s) && RunnerNext(s, l).Some?
    ensures ShutdownInv(RunnerNext(s, l).value)
  {
    var n := RunnerNext(s, l).value;
    forall w: nat | w < |s.workers| && TerminatedAt(s.workers, w)
      ensures TerminatedAt(n.workers, w)
    {
    }
  }

  // ----- The shutdown itself -----

  lemma QueueKeepsShutdown(s: Pool)
    requires Inv(s) && ShutdownInv(s) && QueueNext(s).Some?
    ensures ShutdownInv(QueueNext(s).value)
  {
  }

  /** Away from polling and from the end, nothing has been claimed about the workers. */
  predicate Quiet(c: Control) {
    !c.shut.Poll? && !SeenAll(c)
  }

  lemma QuietHasPolls(c: Control, workers: seq<Worker>)
    requires Quiet(c)
    ensures PollInv(c, workers)
  {
  }

  lemma ChooseIsQuiet(s: Pool, w: WorkerId)
    requires s.ctl.outcome.None? && ChooseNext(s, w).Some?
    ensures Quiet(ChooseNext(s, w).value.ctl)
  {
  }

  lemma ChooseKeepsChannels(s: Pool, w: WorkerId)
    requires ChannelsInv(s.ctl, s.workers) && ChooseNext(s, w).Some?
    ensures var n := ChooseNext(s, w).value; ChannelsInv(n.ctl, n.workers)
  {
    var n := ChooseNext(s, w).value;
    assert forall v: nat :: Unvisited(n.ctl.shut, n.ctl.state, v) ==> Unvisited(s.ctl.shut, s.ctl.state, v);
  }

  lemma ChooseKeepsStops(s: Pool, w: WorkerId)
    requires StopsInv(s.ctl.shut, s.tasks, s.loc) && ChooseNext(s, w).Some?
    ensures var n := ChooseNext(s, w).value; StopsInv(n.ctl.shut, n.tasks, n.loc)
  {
  }

  lemma ChooseKeepsShutdown(s: Pool, w: WorkerId)
    requires CtlInv(s.ctl, s.queue.closed, s.errs.closed) && ShutdownInv(s) && ChooseNext(s, w).Some?
    ensures ShutdownInv(ChooseNext(s, w).value)
  {
    MiddleHasNoOutcome(s);
    ChooseIsQuiet(s, w);
    QuietHasPolls(ChooseNext(s, w).value.ctl, ChooseNext(s, w).value.workers);
    ChooseKeepsChannels(s, w);
    ChooseKeepsStops(s, w);
  }

  /** The outcome is set only with the final state, so a shutdown under way has none. */
  lemma MiddleHasNoOutcome(s: Pool)
    requires CtlInv(s.ctl, s.queue.closed, s.errs.closed)
    requires !s.ctl.shut.Off? && !s.ctl.shut.SignalRunner? && !s.ctl.shut.CloseSignal? && !s.ctl.shut.Unlocking?
    ensures s.ctl.outcome.None?
  {
  }

  lemma TaskStopKeepsStops(s: Pool)
    requires TasksInv(s.tasks, s.loc, s.workers) && StopsInv(s.ctl.shut, s.tasks, s.loc) && TaskNext(s).Some?
    ensures var n := TaskNext(s).value; StopsInv(n.ctl.shut, n.tasks, n.loc)
  {
    assert PlaceInv(s.tasks[s.ctl.shut.t], s.loc[s.ctl.shut.t], s.workers);
  }

  lemma TaskStopIsQuiet(s: Pool)
    requires s.ctl.outcome.None? && TaskNext(s).Some?
    ensures Quiet(TaskNext(s).value.ctl)
  {
  }

  lemma TaskStopVisitsNone(s: Pool, v: WorkerId)
    requires TaskNext(s).Some?
    ensures var n := TaskNext(s).value;
      && n.workers == s.workers && !n.ctl.shut.WorkerSend? && !n.ctl.shut.WorkerClose?
      && !n.ctl.shut.TestIdle? && !n.ctl.shut.TestStop?
      && (Unvisited(n.ctl.shut, n.ctl.state, v) ==> Unvisited(s.ctl.shut, s.ctl.state, v))
  {
  }

  lemma TaskStopKeepsChannels(s: Pool)
    requires ChannelsInv(s.ctl, s.workers) && TaskNext(s).Some?
    ensures var n := TaskNext(s).value; ChannelsInv(n.ctl, n.workers)
  {
    var n := TaskNext(s).value;
    forall v: nat
      ensures n.workers == s.workers && !n.ctl.shut.WorkerSend? && !n.ctl.shut.WorkerClose?
      ensures !n.ctl.shut.TestIdle? && !n.ctl.shut.TestStop?
      ensures Unvisited(n.ctl.shut, n.ctl.state, v) ==> Unvisited(s.ctl.shut, s.ctl.state, v)
    {
      TaskStopVisitsNone(s, v);
    }
  }

  lemma TaskStopKeepsShutdown(s: Pool)
    requires CtlInv(s.ctl, s.queue.closed, s.errs.closed)
    requires TasksInv(s.tasks, s.loc, s.workers) && ShutdownInv(s) && TaskNext(s).Some?
    ensures ShutdownInv(TaskNext(s).value)
  {
    MiddleHasNoOutcome(s);
    TaskStopIsQuiet(s);
    QuietHasPolls(TaskNext(s).value.ctl, TaskNext(s).value.workers);
    TaskStopKeepsChannels(s);
    TaskStopKeepsStops(s);
  }

  lemma WorkerTestIsQuiet(s: Pool)
    requires s.ctl.outcome.None? && (s.ctl.shut.TestIdle? || s.ctl.shut.TestStop?) && WorkerTestNext(s).Some?
    ensures var n := WorkerTestNext(s).value; Quiet(n.ctl) && n == s.(ctl := s.ctl.(shut := n.ctl.shut))
  {
  }

  lemma WorkerTestKeepsChannels(s: Pool)
    requires ChannelsInv(s.ctl, s.workers) && (s.ctl.shut.TestIdle? || s.ctl.shut.TestStop?) && WorkerTestNext(s).Some?
    ensures var n := WorkerTestNext(s).value; ChannelsInv(n.ctl, s.workers)
  {
    var n := WorkerTestNext(s).value;
    assert forall v: nat :: Unvisited(n.ctl.shut, n.ctl.state, v) ==> Unvisited(s.ctl.shut, s.ctl.state, v);
  }

  lemma WorkerTestKeepsStops(s: Pool)
    requires (s.ctl.shut.TestIdle? || s.ctl.shut.TestStop?) && WorkerTestNext(s).Some?
    ensures StopsInv(WorkerTestNext(s).value.ctl.shut, s.tasks, s.loc)
  {
  }

  lemma WorkerTestKeepsShutdown(s: Pool)
    requires s.ctl.outcome.None? && ShutdownInv(s) && (s.ctl.shut.TestIdle? || s.ctl.shut.TestStop?)
    requires WorkerTestNext(s).Some?
    ensures ShutdownInv(WorkerTestNext(s).value)
  {
    WorkerTestIsQuiet(s);
    QuietHasPolls(WorkerTestNext(s).value.ctl, s.workers);
    WorkerTestKeepsChannels(s);
    WorkerTestKeepsStops(s);
  }

  lemma WorkerSendKeepsShutdown(s: Pool)
    requires s.ctl.outcome.None? && ShutdownInv(s) && s.ctl.shut.WorkerSend? && WorkerSendNext(s).Some?
    ensures ShutdownInv(WorkerSendNext(s).value)
  {
    QuietHasPolls(WorkerSendNext(s).value.ctl, WorkerSendNext(s).value.workers);
  }

  lemma WorkerCloseKeepsShutdown(s: Pool)
    requires s.ctl.outcome.None? && ShutdownInv(s) && s.ctl.shut.WorkerClose? && WorkerCloseNext(s).Some?
    ensures ShutdownInv(WorkerCloseNext(s).value)
  {
    QuietHasPolls(WorkerCloseNext(s).value.ctl, WorkerCloseNext(s).value.workers);
  }

  lemma WorkerTaskKeepsShutdown(s: Pool)
    requires s.ctl.outcome.None? && ShutdownInv(s) && (s.ctl.shut.WorkerTask? || s.ctl.shut.WorkerLoad?)
    requires WorkerTaskNext(s).Some?
    requires s.workers[s.ctl.shut.w].task.Some? ==> s.workers[s.ctl.shut.w].task.value in s.tasks
    ensures ShutdownInv(WorkerTaskNext(s).value)
  {
    QuietHasPolls(WorkerTaskNext(s).value.ctl, WorkerTaskNext(s).value.workers);
  }

  lemma CurrentTaskExists(s: Pool, w: WorkerId)
    requires HoldInv(s.workers, s.loc) && s.loc.Keys == s.tasks.Keys && w < |s.workers|
    requires WorkerInv(w, s.workers[w], s.errs.items, s.ctl.runner) && s.workers[w].task.Some?
    ensures s.workers[w].task.value in s.tasks
  {
    assert HeldTask(s.workers[w].pc) == s.workers[w].task;
  }

  lemma WorkerStopKeepsShutdown(s: Pool)
    requires Inv(s) && ShutdownInv(s) && WorkerStopNext(s).Some?
    ensures ShutdownInv(WorkerStopNext(s).value)
  {
    MiddleHasNoOutcome(s);
    var w := s.ctl.shut.w;
    assert WorkerInv(w, s.workers[w], s.errs.items, s.ctl.runner);
    if s.workers[w].task.Some? {
      CurrentTaskExists(s, w);
    }
    if s.ctl.shut.TestIdle? || s.ctl.shut.TestStop? {
      WorkerTestKeepsShutdown(s);
    } else if s.ctl.shut.WorkerSend? {
      WorkerSendKeepsShutdown(s);
    } else if s.ctl.shut.WorkerClose? {
      WorkerCloseKeepsShutdown(s);
    } else {
      WorkerTaskKeepsShutdown(s);
    }
  }

  lemma PollEndKeepsShutdown(s: Pool)
    requires ShutdownInv(s) && PollEndNext(s).Some?
    ensures ShutdownInv(PollEndNext(s).value)
  {
  }

  lemma ErrsKeepsShutdown(s: Pool)
    requires CtlInv(s.ctl, s.queue.closed, s.errs.closed) && ShutdownInv(s) && ErrsNext(s).Some?
    ensures ShutdownInv(ErrsNext(s).value)
  {
  }

  lemma FinishKeepsShutdown(s: Pool)
    requires ShutdownInv(s) && FinishNext(s).Some?
    ensures ShutdownInv(FinishNext(s).value)
  {
  }

  predicate Signalling(c: Control) {
    c.state.PoolShutdown? && (c.shut.SignalRunner? || c.shut.CloseSignal? || c.shut.Unlocking? || c.shut.Off?)
  }

  lemma SignalGoesOn(s: Pool)
    requires Signalling(s.ctl) && SignalNext(s).Some?
    ensures var n := SignalNext(s).value;
      Signalling(n.ctl) && n.ctl.outcome == s.ctl.outcome && n == s.(ctl := n.ctl)
  {
  }

  lemma SignallingHasShutdown(c: Control, s: Pool)
    requires ShutdownInv(s) && Signalling(c) && c.outcome == s.ctl.outcome
    ensures ShutdownInv(s.(ctl := c))
  {
  }

  lemma SignalKeepsShutdown(s: Pool)
    requires Signalling(s.ctl) && ShutdownInv(s) && SignalNext(s).Some?
    ensures ShutdownInv(SignalNext(s).value)
  {
    SignalGoesOn(s);
    SignallingHasShutdown(SignalNext(s).value.ctl, s);
  }

  lemma BoundaryKeepsShutdown(s: Pool, l: ShutLabel)
    requires CtlInv(s.ctl, s.queue.closed, s.errs.closed) && ShutdownInv(s) && ShutNext(s, l).Some?
    requires l.CallStop? || l.ChosenAll? || l.PollTimeout? || l.PollWorker?
    ensures ShutdownInv(ShutNext(s, l).value)
  {
  }

  lemma ShutKeepsShutdown(s: Pool, l: ShutLabel)
    requires Inv(s) && ShutdownInv(s) && ShutNext(s, l).Some?
    ensures ShutdownInv(ShutNext(s, l).value)
  {
    match l
    case StepQueue => QueueKeepsShutdown(s);
    case Choose(w) => ChooseKeepsShutdown(s, w);
    case StepTask => TaskStopKeepsShutdown(s);
    case StepWorker => WorkerStopKeepsShutdown(s);
    case PollEnd => PollEndKeepsShutdown(s);
    case StepErrs => ErrsKeepsShutdown(s);
    case Finish => FinishKeepsShutdown(s);
    case StepSignal => SignalKeepsShutdown(s);
    case _ => BoundaryKeepsShutdown(s, l);
  }

  lemma NextKeepsShutdown(s: Pool, l: Label)
    requires Inv(s) && ShutdownInv(s) && Next(s, l).Some?
    ensures ShutdownInv(Next(s, l).value)
  {
    var n := Next(s, l).value;
    match l
    case Runner(rl) => RunnerKeepsShutdown(s, rl);
    case Shut(sl) => ShutKeepsShutdown(s, sl);
    case OfWorker(w, wl) =>
      WorkerIsHarmless(s, w, wl);
      HarmlessKeepsShutdown(s, n);
    case OfClient(c, cl) =>
      ClientIsHarmless(s, c, cl);
      HarmlessKeepsShutdown(s, n);
    case OfTask(t, o) =>
      OutsideIsHarmless(s, t, o);
      HarmlessKeepsShutdown(s, n);
    case ParentClose =>
  }
}
