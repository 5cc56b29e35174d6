/**
Smaller guarantees of the background pool, one invariant each: bounds, timeouts
that are not set, the order of starting, reasons of ending, and the end of RunBG.
*/
module PoolDetails {
  import opened Options
  import T = Tasks
  import L = TaskLife
  import opened PoolMachine
  import opened PoolInvariant
  import opened PoolSteps
  import opened PoolShutSteps
  import opened PoolShutdown
  import opened PoolTheorems
  import opened PoolStop
  import opened PoolAborts
  import opened PoolDrain
  import opened PoolRuns

  // ----- The queue's size, and the order of starting -----

  /** The queue never outgrows its size. */
  predicate SmallQueue(s: Pool) {
    |s.queue.items| <= s.cfg.queueSize
  }

  predicate PastTest(k: Client) {
    k.pc.AddWg? || k.pc.Send? || k.pc.Sent?
  }

  /** Nothing is added before RunBG has made all its workers. */
  ghost predicate StartsFirst(s: Pool) {
    s.ctl.runner.NotStarted? || s.ctl.runner.Spawning? ==>
      s.queue.items == [] && forall c :: c in s.clients ==> !PastTest(s.clients[c])
  }

  lemma ClientKeepsQueue(s: Pool, c: ClientId, l: ClientLabel)
    requires LockInv(s.ctl) && StateInv(s.ctl, s.queue.closed, s.errs.closed)
    requires SmallQueue(s) && StartsFirst(s) && ClientNext(s, c, l).Some?
    ensures SmallQueue(ClientNext(s, c, l).value) && StartsFirst(ClientNext(s, c, l).value)
  {
  }

  lemma WorkerKeepsQueue(s: Pool, w: WorkerId, l: WorkerLabel)
    requires SmallQueue(s) && StartsFirst(s) && WorkerNext(s, w, l).Some?
    ensures SmallQueue(WorkerNext(s, w, l).value) && StartsFirst(WorkerNext(s, w, l).value)
  {
  }

  lemma ShutKeepsQueue(s: Pool, l: ShutLabel)
    requires LockInv(s.ctl) && SmallQueue(s) && StartsFirst(s) && ShutNext(s, l).Some?
    ensures SmallQueue(ShutNext(s, l).value) && StartsFirst(ShutNext(s, l).value)
  {
    ShutKeepsClients(s, l);
    if l.StepQueue? {
      QueueStepShrinks(s);
    } else {
      ShutLeavesQueue(s, l);
    }
    ShutKeepsStart(s, l);
  }

  lemma QueueStepShrinks(s: Pool)
    requires QueueNext(s).Some?
    ensures var n := QueueNext(s).value; n.queue.items == s.queue.items || (s.queue.items != [] && n.queue.items == s.queue.items[1..])
    ensures QueueNext(s).value.ctl.runner == s.ctl.runner
  {
  }

  /** A shutdown does not take the runner back to its start. */
  lemma ShutKeepsStart(s: Pool, l: ShutLabel)
    requires LockInv(s.ctl) && ShutNext(s, l).Some?
    ensures var r := ShutNext(s, l).value.ctl.runner; r == s.ctl.runner || r.Returning?
  {
    match l
    case StepQueue => QueueStepShrinks(s);
    case StepTask => TaskStaysMiddle(s);
    case StepWorker => WorkerStaysMiddle(s);
    case Choose(w) => ChooseShape(s, w);
    case PollEnd => PollEndShape(s);
    case StepErrs => ErrsKeepsRunner(s);
    case Finish => FinishKeepsRunner(s);
    case StepSignal => SignalShape(s);
    case _ =>
  }

  lemma ErrsKeepsRunner(s: Pool)
    requires ErrsNext(s).Some?
    ensures ErrsNext(s).value.ctl.runner == s.ctl.runner
  {
  }

  lemma FinishKeepsRunner(s: Pool)
    requires FinishNext(s).Some?
    ensures var r := FinishNext(s).value.ctl.runner; r == s.ctl.runner || r.Returning?
  {
  }

  lemma RunnerKeepsQueue(s: Pool, l: RunnerLabel)
    requires SmallQueue(s) && StartsFirst(s) && RunnerNext(s, l).Some?
    ensures SmallQueue(RunnerNext(s, l).value) && StartsFirst(RunnerNext(s, l).value)
  {
  }

  lemma StepKeepsQueue(s: Pool, l: Label)
    requires CtlInv(s.ctl, s.queue.closed, s.errs.closed) && SmallQueue(s) && StartsFirst(s) && Next(s, l).Some?
    ensures SmallQueue(Next(s, l).value) && StartsFirst(Next(s, l).value)
  {
    match l
    case Runner(rl) => RunnerKeepsQueue(s, rl);
    case Shut(sl) => ShutKeepsQueue(s, sl);
    case OfWorker(w, wl) => WorkerKeepsQueue(s, w, wl);
    case OfClient(c, cl) => ClientKeepsQueue(s, c, cl);
    case _ =>
  }

  // ----- How a shutdown begins and ends -----

  /** RunBG shuts the pool down itself only after its parent context was closed. */
  predicate ParentClosed(c: Control) {
    c.runner.Locking? ==> !c.parentLive
  }

  predicate TimingOut(c: Control) {
    || c.state.TerminateTimeout? || c.shut == CloseErrs(true) || c.shut == DrainErrs(true) || c.shut == Finishing(TimedOut)
    || c.outcome == Some(TimedOut)
  }

  predicate ErrorsRead(c: Control) {
    || c.shut == Finishing(Completed) || c.shut == Finishing(TimedOut)
    || c.outcome == Some(Completed) || c.outcome == Some(TimedOut)
  }

  /** Without a timeout none is hit; a shutdown not cut short has read all errors; and Stop has closed the
      pool's stop channel for a RunBG that is still in its loop. */
  predicate EndInv(s: Pool) {
    && ParentClosed(s.ctl)
    && (TimingOut(s.ctl) ==> s.cfg.shutdownTimeout != 0)
    && (ErrorsRead(s.ctl) ==> s.errs.items == [])
    && (s.ctl.shut.Unlocking? ==> s.ctl.stopCh.closed)
    && (s.ctl.outcome.Some? && s.ctl.shut.Off? && !s.ctl.runner.Returning? && !s.ctl.runner.Ended? ==> s.ctl.stopCh.closed)
  }

  lemma RunnerKeepsEnd(s: Pool, l: RunnerLabel)
    requires CtlInv(s.ctl, s.queue.closed, s.errs.closed) && EndInv(s) && RunnerNext(s, l).Some?
    ensures EndInv(RunnerNext(s, l).value)
  {
  }

  lemma WorkerKeepsEnd(s: Pool, w: WorkerId, l: WorkerLabel)
    requires CtlInv(s.ctl, s.queue.closed, s.errs.closed) && EndInv(s) && WorkerNext(s, w, l).Some?
    requires ErrorsRead(s.ctl) ==> s.errs.closed
    ensures EndInv(WorkerNext(s, w, l).value)
  {
    WorkerReportsOnly(s, w, l);
  }

  lemma WorkerReportsOnly(s: Pool, w: WorkerId, l: WorkerLabel)
    requires WorkerNext(s, w, l).Some?
    ensures var n := WorkerNext(s, w, l).value;
      && n.ctl == s.ctl && n.cfg == s.cfg && (s.errs.closed && s.errs.items == [] ==> n.errs.items == [])
  {
  }

  lemma ErrorsReadIsClosed(c: Control, queueClosed: bool, errsClosed: bool)
    requires CtlInv(c, queueClosed, errsClosed)
    ensures ErrorsRead(c) ==> errsClosed
  {
  }

  lemma PollKeepsEnd(s: Pool, l: ShutLabel)
    requires CtlInv(s.ctl, s.queue.closed, s.errs.closed) && EndInv(s)
    requires (l.CallStop? || l.ChosenAll? || l.PollTimeout? || l.PollWorker? || l.PollEnd?) && ShutNext(s, l).Some?
    ensures EndInv(ShutNext(s, l).value)
  {
  }

  lemma ErrsKeepsEnd(s: Pool)
    requires CtlInv(s.ctl, s.queue.closed, s.errs.closed) && EndInv(s) && ErrsNext(s).Some?
    ensures EndInv(ErrsNext(s).value)
  {
  }

  lemma FinishKeepsEnd(s: Pool)
    requires CtlInv(s.ctl, s.queue.closed, s.errs.closed) && EndInv(s) && FinishNext(s).Some?
    ensures EndInv(FinishNext(s).value)
  {
    var n := FinishNext(s).value;
    assert n.errs == s.errs && n.cfg == s.cfg && n.ctl.parentLive == s.ctl.parentLive;
    assert CtlInv(s.ctl, s.queue.closed, s.errs.closed);
  }

  lemma SignalKeepsEnd(s: Pool)
    requires CtlInv(s.ctl, s.queue.closed, s.errs.closed) && EndInv(s) && SignalNext(s).Some?
    ensures EndInv(SignalNext(s).value)
  {
    SignalShape(s);
  }

  /** Steps between the closing of the queue and the polling leave all this alone. */
  lemma MiddleKeepsEnd(s: Pool, c: Control)
    requires CtlInv(s.ctl, s.queue.closed, s.errs.closed) && EndInv(s) && s.ctl.outcome.None?
    requires c == s.ctl.(shut := c.shut) && (Middle(c.shut) || c.shut == Finishing(Aborted))
    requires Middle(s.ctl.shut) || s.ctl.shut.CloseQueue?
    ensures EndInv(s.(ctl := c))
  {
  }

  lemma QueueIsMiddle(s: Pool)
    requires QueueNext(s).Some?
    ensures var n := QueueNext(s).value;
      && n.ctl == s.ctl.(shut := n.ctl.shut) && n.errs == s.errs && n.cfg == s.cfg
      && (Middle(n.ctl.shut) || n.ctl.shut == Finishing(Aborted)) && (Middle(s.ctl.shut) || s.ctl.shut.CloseQueue?)
  {
    QueueTouchesQueue(s);
  }

  lemma QueueTouchesQueue(s: Pool)
    requires QueueNext(s).Some?
    ensures var n := QueueNext(s).value; n == s.(ctl := s.ctl.(shut := n.ctl.shut), queue := n.queue, loc := n.loc)
  {
  }

  lemma ShutKeepsEnd(s: Pool, l: ShutLabel)
    requires CtlInv(s.ctl, s.queue.closed, s.errs.closed) && EndInv(s) && ShutNext(s, l).Some?
    ensures EndInv(ShutNext(s, l).value)
  {
    match l
    case StepQueue =>
      QueueIsMiddle(s);
      MiddleHasNoOutcome(s);
      MiddleKeepsEnd(s, ShutNext(s, l).value.ctl);
    case StepTask =>
      TaskStaysMiddle(s);
      TaskStopIsNarrow(s);
      MiddleHasNoOutcome(s);
      MiddleKeepsEnd(s, ShutNext(s, l).value.ctl);
    case StepWorker =>
      WorkerStaysMiddle(s);
      WorkerStopChanges(s);
      MiddleHasNoOutcome(s);
      MiddleKeepsEnd(s, ShutNext(s, l).value.ctl);
    case Choose(w) =>
      ChooseShape(s, w);
      MiddleHasNoOutcome(s);
      MiddleKeepsEnd(s, ShutNext(s, l).value.ctl);
    case StepErrs => ErrsKeepsEnd(s);
    case Finish => FinishKeepsEnd(s);
    case StepSignal => SignalKeepsEnd(s);
    case _ => PollKeepsEnd(s, l);
  }

  lemma StepKeepsEnd(s: Pool, l: Label)
    requires CtlInv(s.ctl, s.queue.closed, s.errs.closed) && EndInv(s) && Next(s, l).Some?
    ensures EndInv(Next(s, l).value)
  {
    match l
    case Runner(rl) => RunnerKeepsEnd(s, rl);
    case Shut(sl) => ShutKeepsEnd(s, sl);
    case OfWorker(w, wl) =>
      ErrorsReadIsClosed(s.ctl, s.queue.closed, s.errs.closed);
      WorkerKeepsEnd(s, w, wl);
    case OfClient(c, cl) => ClientShape(s, c, cl);
    case _ =>
  }

  // ----- Timers -----

  /** A task's timer runs only with an effective timeout, and a task that waits with one has a timer. */
  predicate Timed(t: T.Task, workerTimeout: int) {
    && (!t.run.timer.Stopped? ==> T.EffectiveTimeout(t.timeout, workerTimeout) > 0)
    && (t.pc.Select? && t.run.timer.Stopped? ==> T.EffectiveTimeout(t.timeout, workerTimeout) <= 0)
    && (t.state.TerminatedTimeout? ==> T.EffectiveTimeout(t.timeout, workerTimeout) > 0)
  }

  ghost predicate AllTimed(s: Pool) {
    forall t :: t in s.tasks ==> Timed(s.tasks[t], s.cfg.workerTimeout)
  }

  lemma ProcessKeepsTimed(t: T.Task, p: T.ProcessLabel, workerTimeout: int)
    requires Timed(t, workerTimeout) && T.ProcessStep(t, p).Some? && (p.ArmTimer? ==> p.workerTimeout == workerTimeout)
    ensures Timed(T.ProcessStep(t, p).value, workerTimeout)
  {
  }

  lemma OutsideKeepsTimed(t: T.Task, o: T.OutsideLabel, workerTimeout: int)
    requires Timed(t, workerTimeout) && T.OutsideStep(t, o).Some?
    ensures Timed(T.OutsideStep(t, o).value, workerTimeout)
  {
  }

  lemma InTaskChangesOne(s: Pool, w: WorkerId, l: WorkerLabel)
    requires l.InTask? && WorkerNext(s, w, l).Some?
    ensures w < |s.workers| && s.workers[w].pc.Inside? && s.workers[w].pc.t in s.tasks
    ensures var t := s.workers[w].pc.t; var n := WorkerNext(s, w, l).value;
      && T.ProcessStep(s.tasks[t], l.p).Some? && (l.p.ArmTimer? ==> l.p.workerTimeout == s.cfg.workerTimeout)
      && n.tasks == s.tasks[t := T.ProcessStep(s.tasks[t], l.p).value] && n.cfg == s.cfg
  {
  }

  lemma DoorChangesOne(s: Pool, w: WorkerId, l: WorkerLabel)
    requires (l.EnterTask? || l.LeaveTask?) && WorkerNext(s, w, l).Some?
    ensures w < |s.workers| && (s.workers[w].pc.Entering? || s.workers[w].pc.Inside?) && s.workers[w].pc.t in s.tasks
    ensures var t, n := s.workers[w].pc.t, WorkerNext(s, w, l).value;
      && t in n.tasks && n.tasks == s.tasks[t := n.tasks[t]] && n.cfg == s.cfg
      && n.tasks[t] == s.tasks[t].(err := n.tasks[t].err, pc := n.tasks[t].pc)
      && (n.tasks[t].pc == s.tasks[t].pc || !n.tasks[t].pc.Select?)
  {
  }

  lemma OtherWorkerSteps(s: Pool, w: WorkerId, l: WorkerLabel)
    requires !l.InTask? && !l.EnterTask? && !l.LeaveTask? && WorkerNext(s, w, l).Some?
    ensures WorkerNext(s, w, l).value.tasks == s.tasks && WorkerNext(s, w, l).value.cfg == s.cfg
  {
  }

  lemma WorkerKeepsTimed(s: Pool, w: WorkerId, l: WorkerLabel)
    requires AllTimed(s) && WorkerNext(s, w, l).Some?
    ensures AllTimed(WorkerNext(s, w, l).value)
  {
    if l.InTask? {
      InTaskChangesOne(s, w, l);
      ProcessKeepsTimed(s.tasks[s.workers[w].pc.t], l.p, s.cfg.workerTimeout);
    } else if l.EnterTask? || l.LeaveTask? {
      DoorChangesOne(s, w, l);
    } else {
      OtherWorkerSteps(s, w, l);
    }
  }

  lemma ShutKeepsTimed(s: Pool, l: ShutLabel)
    requires AllTimed(s) && ShutNext(s, l).Some?
    ensures AllTimed(ShutNext(s, l).value)
  {
    match l
    case StepTask => TaskStopKeepsRun(s);
    case StepWorker => WorkerStopChanges(s);
    case _ =>
      RestKeepsTasks(s, l);
      ShutKeepsClients(s, l);
  }

  lemma TaskStopKeepsRun(s: Pool)
    requires TaskNext(s).Some?
    ensures var n := TaskNext(s).value; n.cfg == s.cfg && n.tasks.Keys == s.tasks.Keys
    ensures forall t :: t in s.tasks ==> TaskNext(s).value.tasks[t] == s.tasks[t].(stop := TaskNext(s).value.tasks[t].stop)
  {
    TaskStopIsNarrow(s);
    if s.ctl.shut.TaskCheck? {
      TaskCheckKeepsRun(s);
    } else {
      TaskSignalKeepsRun(s);
    }
  }

  lemma TaskCheckKeepsRun(s: Pool)
    requires s.ctl.shut.TaskCheck? && TaskNext(s).Some?
    ensures var t := s.ctl.shut.t; t in s.tasks
    ensures var n, t := TaskNext(s).value.tasks, s.ctl.shut.t; t in n && n == s.tasks[t := s.tasks[t].(stop := n[t].stop)]
  {
    var t := s.ctl.shut.t;
    assert s.tasks == s.tasks[t := s.tasks[t]];
  }

  lemma TaskSignalKeepsRun(s: Pool)
    requires (s.ctl.shut.TaskSend? || s.ctl.shut.TaskClose?) && TaskNext(s).Some?
    ensures var t := s.ctl.shut.t; t in s.tasks
    ensures var n, t := TaskNext(s).value.tasks, s.ctl.shut.t; t in n && n == s.tasks[t := s.tasks[t].(stop := n[t].stop)]
  {
  }

  lemma StepKeepsTimed(s: Pool, l: Label)
    requires AllTimed(s) && Next(s, l).Some?
    ensures AllTimed(Next(s, l).value)
  {
    match l
    case OfWorker(w, wl) => WorkerKeepsTimed(s, w, wl);
    case Shut(sl) => ShutKeepsTimed(s, sl);
    case OfTask(t, o) => OutsideKeepsTimed(s.tasks[t], o, s.cfg.workerTimeout);
    case _ =>
  }

  // ----- Why a worker ends -----

  /** A worker that is ending has read its stop channel, seen the pool's context closed, or found the task
      queue closed and empty, and its state says which. */
  predicate Reason(k: Worker, ctxLive: bool, queue: Fifo<TaskId>) {
    k.pc.Terminating? ==>
      || (k.state.TerminatingStop? && k.stop.Some?)
      || (k.state.Idle? && k.stop.Some? && k.stop.value.closed)
      || (k.state.TerminatingCtx? && !ctxLive)
      || (k.state.TerminatingQueue? && queue.closed && queue.items == [])
  }

  ghost predicate AllReasons(s: Pool) {
    forall w: nat :: w < |s.workers| ==> Reason(s.workers[w], s.ctl.ctxLive, s.queue)
  }

  lemma LocalKeepsReason(ctxLive: bool, queue: Fifo<TaskId>, k: Worker, l: WorkerLabel)
    requires PcState(k.pc, k.state) && Reason(k, ctxLive, queue) && LocalNext(ctxLive, queue, k, l).Some?
    ensures Reason(LocalNext(ctxLive, queue, k, l).value, ctxLive, queue)
  {
  }

  lemma WorkerKeepsReasons(s: Pool, w: WorkerId, l: WorkerLabel)
    requires WorkersInv(s.workers, s.errs.items, s.ctl.runner) && AllReasons(s) && WorkerNext(s, w, l).Some?
    ensures AllReasons(WorkerNext(s, w, l).value)
  {
    WorkerKeepsLifeCycle(s, w, l);
    if !(l.ReportTaken? || l.ReportState? || l.ReportPanic? || l.TakeTask? || l.LosePanic? || l.ClearTask?
         || l.EnterTask? || l.InTask? || l.LeaveTask?) {
      assert WorkerInv(w, s.workers[w], s.errs.items, s.ctl.runner);
      LocalKeepsReason(s.ctl.ctxLive, s.queue, s.workers[w], l);
    }
  }

  lemma ClientKeepsReasons(s: Pool, c: ClientId, l: ClientLabel)
    requires AllReasons(s) && ClientNext(s, c, l).Some?
    ensures AllReasons(ClientNext(s, c, l).value)
  {
  }

  lemma RunnerKeepsReasons(s: Pool, l: RunnerLabel)
    requires AllReasons(s) && RunnerNext(s, l).Some?
    ensures AllReasons(RunnerNext(s, l).value)
  {
  }

  lemma ShutKeepsContextAndLength(s: Pool, l: ShutLabel)
    requires ShutNext(s, l).Some?
    ensures ShutNext(s, l).value.ctl.ctxLive == s.ctl.ctxLive
    ensures s.queue.closed ==> ShutNext(s, l).value.queue.closed
    ensures s.queue.items == [] ==> ShutNext(s, l).value.queue.items == []
  {
    match l
    case StepQueue =>
    case StepTask => TaskStaysMiddle(s);
    case StepWorker => WorkerStaysMiddle(s);
    case Choose(w) => ChooseShape(s, w);
    case PollEnd => PollEndShape(s);
    case StepErrs =>
    case Finish =>
    case StepSignal => SignalShape(s);
    case _ =>
  }

  lemma ShutKeepsReasons(s: Pool, l: ShutLabel)
    requires AllReasons(s) && ShutNext(s, l).Some?
    ensures AllReasons(ShutNext(s, l).value)
  {
    ShutKeepsContextAndLength(s, l);
    if l.StepWorker? {
      WorkerStopChanges(s);
      StopKeepsClosed(s);
    } else if l.StepTask? {
      TaskStopIsNarrow(s);
    } else {
      RestKeepsTasks(s, l);
    }
    ShutLeavesQueueUnless(s, l);
  }

  lemma StopKeepsClosed(s: Pool)
    requires WorkerStopNext(s).Some?
    ensures var n := WorkerStopNext(s).value; var w := s.ctl.shut.w;
      w < |s.workers| == |n.workers| && (s.workers[w].stop.Some? && s.workers[w].stop.value.closed ==>
                                           n.workers[w].stop.Some? && n.workers[w].stop.value.closed)
  {
  }

  lemma ShutLeavesQueueUnless(s: Pool, l: ShutLabel)
    requires ShutNext(s, l).Some?
    ensures l.StepQueue? || ShutNext(s, l).value.queue == s.queue
  {
    if !l.StepQueue? {
      ShutLeavesQueue(s, l);
    }
  }

  lemma StepKeepsReasons(s: Pool, l: Label)
    requires WorkersInv(s.workers, s.errs.items, s.ctl.runner) && AllReasons(s) && Next(s, l).Some?
    ensures AllReasons(Next(s, l).value)
  {
    match l
    case Runner(rl) => RunnerKeepsReasons(s, rl);
    case Shut(sl) => ShutKeepsReasons(s, sl);
    case OfWorker(w, wl) => WorkerKeepsReasons(s, w, wl);
    case OfClient(c, cl) => ClientKeepsReasons(s, c, cl);
    case _ =>
  }

  // ----- All of it, in every reachable state -----

  ghost predicate Details(s: Pool) {
    SmallQueue(s) && StartsFirst(s) && EndInv(s) && AllTimed(s) && AllReasons(s)
  }

  lemma {:induction false} RunKeepsDetails(s: Pool, labels: seq<Label>)
    requires Good(s) && Details(s) && Run(s, labels).Some?
    ensures Details(Run(s, labels).value)
    decreases |labels|
  {
    if labels != [] {
      var l := labels[0];
      NextKeepsInv(s, l);
      NextKeepsShutdown(s, l);
      StepKeepsQueue(s, l);
      StepKeepsEnd(s, l);
      StepKeepsTimed(s, l);
      StepKeepsReasons(s, l);
      RunKeepsDetails(Next(s, l).value, labels[1..]);
    }
  }

  lemma InitHasDetails(s: Pool)
    requires Init(s)
    ensures Details(s)
  {
  }

  lemma ReachableHasDetails(s: Pool)
    requires Reachable(s)
    ensures Good(s) && Details(s)
  {
    var start: Pool, labels: seq<Label> :| Init(start) && Run(start, labels) == Some(s);
    InitHasInv(start);
    InitHasDetails(start);
    RunKeepsDetails(start, labels);
    ReachableIsGood(s);
  }

  /** The queue holds at most queueSize tasks, and nothing is added before RunBG has made all its workers. */
  lemma QueueIsBounded(s: Pool, c: ClientId)
    requires Reachable(s)
    ensures |s.queue.items| <= s.cfg.queueSize
    ensures c in s.clients && PastTest(s.clients[c]) ==> |s.workers| == s.cfg.concurrency
    ensures s.queue.items != [] ==> |s.workers| == s.cfg.concurrency
  {
    ReachableHasDetails(s);
  }

  /** A shutdown does not time out when no timeout is set; one that is not cut short leaves no error unread; and
      RunBG shuts the pool down itself only after its parent context was closed. */
  lemma ShutdownEndsAsSet(s: Pool)
    requires Reachable(s)
    ensures s.ctl.outcome == Some(TimedOut) ==> s.cfg.shutdownTimeout != 0
    ensures s.ctl.outcome.Some? && s.ctl.outcome != Some(Aborted) ==> s.errs.closed && s.errs.items == []
    ensures s.ctl.runner.Locking? ==> !s.ctl.parentLive
  {
    ReachableHasDetails(s);
    ErrorsReadIsClosed(s.ctl, s.queue.closed, s.errs.closed);
    if s.ctl.outcome.Some? {
      match s.ctl.outcome.value
      case Completed => assert ErrorsRead(s.ctl);
      case TimedOut => assert ErrorsRead(s.ctl);
      case Aborted =>
    }
  }

  /** A task times out only with an effective timeout, its own or the worker's; and with one, its timer runs or
      has fired while it waits. */
  lemma TimeoutsAreAsSet(s: Pool, t: TaskId)
    requires Reachable(s) && t in s.tasks
    ensures s.tasks[t].timeout <= 0 && s.cfg.workerTimeout <= 0 ==>
              s.tasks[t].run.timer.Stopped? && !s.tasks[t].state.TerminatedTimeout?
    ensures (s.tasks[t].timeout > 0 || s.cfg.workerTimeout > 0) && s.tasks[t].pc.Select? ==> !s.tasks[t].run.timer.Stopped?
  {
    ReachableHasDetails(s);
    assert Timed(s.tasks[t], s.cfg.workerTimeout);
  }

  /** A worker ends for one of three reasons, and its state says which. */
  lemma WorkersEndForAReason(s: Pool, w: WorkerId)
    requires Reachable(s) && w < |s.workers|
    ensures Reason(s.workers[w], s.ctl.ctxLive, s.queue)
  {
    ReachableHasDetails(s);
  }

  /** At the head of its loop a worker that has been told to stop, or whose context is closed, does not wait for
      a task any more. */
  lemma EndIsSeenFirst(s: Pool, w: WorkerId, l: WorkerLabel)
    requires w < |s.workers| && s.workers[w].pc.Top? && WorkerNext(s, w, l).Some?
    requires !s.ctl.ctxLive || (s.workers[w].stop.Some? && T.Receivable(s.workers[w].stop.value))
    ensures WorkerNext(s, w, l).value.workers[w].pc.Terminating? || l.TryRun? || l.ReportTaken?
  {
  }

  // ----- RunBG can end -----

  lemma RunnerStepAlone(start: Pool, s: Pool, l: RunnerLabel)
    requires ReachesAlone(start, s) && RunnerNext(s, l).Some?
    ensures ReachesAlone(start, RunnerNext(s, l).value)
  {
    StepAlone(start, s, Runner(l));
  }

  lemma Cancels(start: Pool, s: Pool) returns (n: Pool)
    requires ReachesAlone(start, s) && (s.ctl.runner.Returning? || (s.ctl.runner.Ended? && !s.ctl.ctxLive))
    ensures ReachesAlone(start, n) && n.ctl.runner.Ended? && !n.ctl.ctxLive
  {
    n := s;
    if s.ctl.runner.Returning? {
      RunnerStepAlone(start, s, Cancel);
      n := RunnerNext(s, Cancel).value;
    }
  }

  /** After a stop RunBG, wherever it is, can end by its own steps, with the workers' context cancelled. */
  lemma RunBGCanEnd(s: Pool) returns (n: Pool)
    requires Reachable(s) && s.ctl.outcome.Some? && s.ctl.lock.Free? && (s.ctl.runner.Ended? ==> !s.ctl.ctxLive)
    ensures ReachesAlone(s, n) && n.ctl.runner.Ended? && !n.ctl.ctxLive
  {
    ReachableHasDetails(s);
    AloneFromItself(s);
    var m := s;
    if m.ctl.runner.Restarting? {
      RunnerStepAlone(s, m, Restart);
      m := RunnerNext(m, Restart).value;
    }
    if m.ctl.runner.Selecting? {
      RunnerStepAlone(s, m, RecvStopSignal);
      m := RunnerNext(m, RecvStopSignal).value;
    } else if m.ctl.runner.Locking? {
      RunnerStepAlone(s, m, LockShutdown);
      m := RunnerNext(m, LockShutdown).value;
    }
    n := Cancels(s, m);
  }

  /** When its parent context closes, a pool whose RunBG waits in its loop can begin to shut down. */
  lemma ParentCloseStopsPool(s: Pool) returns (n: Pool)
    requires Reachable(s) && s.ctl.state.BgRunning? && s.ctl.lock.Free? && s.ctl.runner.Selecting?
    ensures ReachesAlone(s, n) && n.ctl.state.ShuttingDown? && n.ctl.runner.InShutdown?
  {
    AloneFromItself(s);
    StepAlone(s, s, ParentClose);
    var s1 := Next(s, ParentClose).value;
    RunnerStepAlone(s, s1, ParentDone);
    var s2 := RunnerNext(s1, ParentDone).value;
    RunnerStepAlone(s, s2, LockShutdown);
    n := RunnerNext(s2, LockShutdown).value;
  }

  // ----- Nil tasks -----

  /** A group that has only nil tasks left, and nothing outstanding, can return nil by its own steps, whatever the pool's state. */
  lemma {:induction false} NilTasksAreSkipped(start: Pool, s: Pool, c: ClientId) returns (n: Pool)
    requires ReachesAlone(start, s) && c in s.clients && c in s.wg && s.wg[c] == 0
    requires s.clients[c].pc.Loop? && s.clients[c].i <= |s.clients[c].tasks|
    requires forall j: nat :: s.clients[c].i <= j < |s.clients[c].tasks| ==> s.clients[c].tasks[j].None?
    ensures ReachesAlone(start, n) && c in n.clients && n.clients[c].pc == Return(true)
    decreases |s.clients[c].tasks| - s.clients[c].i
  {
    StepAlone(start, s, OfClient(c, Advance));
    var m := ClientNext(s, c, Advance).value;
    if s.clients[c].i < |s.clients[c].tasks| {
      n := NilTasksAreSkipped(start, m, c);
    } else {
      StepAlone(start, m, OfClient(c, SeeZero));
      n := ClientNext(m, c, SeeZero).value;
    }
  }

  // ----- Every call gets on -----

  /** How many steps a group call has left at most. */
  function StepsLeft(k: Client): int {
    var at := match k.pc
      case Loop => 9
      case SetWg => 8 case Check => 7 case AddWg => 6 case Send => 5 case Sent => 4
      case Wait => 2
      case Return(_) => 0 case ReturnLate => 0;
    10 * (|k.tasks| - k.i) + at
  }

  /** No step of a group call is in vain, a panicked one included: the call comes to its end in boundedly many. */
  lemma GroupGetsOn(s: Pool, c: ClientId, l: ClientLabel)
    requires ClientNext(s, c, l).Some?
    ensures c in s.clients && c in ClientNext(s, c, l).value.clients
    ensures var k, next := s.clients[c], ClientNext(s, c, l).value.clients[c];
      k.i <= |k.tasks| ==> 0 <= StepsLeft(next) < StepsLeft(k) && next.i <= |next.tasks|
  {
  }

  /** How many steps RunBG has left at most once its error channel is closed. */
  function RunnerStepsLeft(s: Pool): nat {
    var waiting := 2 * |s.errs.items|;
    match s.ctl.runner
    case NotStarted => waiting + s.cfg.concurrency + 9
    case Spawning => waiting + (if |s.workers| <= s.cfg.concurrency then s.cfg.concurrency - |s.workers| else 0) + 8
    case Restarting(_) => waiting + 6
    case Selecting => waiting + 5
    case Locking => waiting + 4
    case InShutdown => waiting + 3
    case Returning => waiting + 1
    case Ended => waiting
  }

  /** No step of RunBG is in vain: it answers an error, or comes nearer to its end. */
  lemma RunnerGetsOn(s: Pool, l: RunnerLabel)
    requires RunnerNext(s, l).Some?
    ensures RunnerStepsLeft(RunnerNext(s, l).value) < RunnerStepsLeft(s)
    ensures l.RecvErrClosed? ==> RunnerNext(s, l).value.ctl.runner.Returning?
  {
  }

  /** A group gives up before its tasks are added only if it has a time limit. */
  lemma GroupTimesOutAsSet(s: Pool, c: ClientId)
    requires ClientNext(s, c, GroupTimeout).Some?
    ensures s.cfg.totalTimeout > 0 && c in s.clients && s.clients[c].i < |s.clients[c].tasks|
  {
  }
}
