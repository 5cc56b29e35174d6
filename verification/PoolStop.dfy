/**
What Stop brings about, in every continuation: quiescence, no task accepted any
more, and the fate of the tasks it took out of the queue.
*/
module PoolStop {
  import opened Options
  import T = Tasks
  import L = TaskLife
  import opened PoolMachine
  import opened PoolInvariant
  import opened PoolShutSteps
  import opened PoolShutdown
  import opened PoolTheorems

  // ----- Who changes what -----

  /** The steps with which a running pool begins to shut down: a call of Stop, or the closed parent context. */
  predicate BeginsStop(l: Label) {
    (l.Shut? && l.sl.CallStop?) || l == Runner(LockShutdown)
  }

  lemma TaskStopIsNarrow(s: Pool)
    requires TaskNext(s).Some?
    ensures var n := TaskNext(s).value; n == s.(ctl := n.ctl, tasks := n.tasks)
  {
  }

  lemma ShutKeepsClients(s: Pool, l: ShutLabel)
    requires ShutNext(s, l).Some?
    ensures ShutNext(s, l).value.wg == s.wg
    ensures ShutNext(s, l).value.clients == s.clients && ShutNext(s, l).value.cfg == s.cfg
  {
    match l
    case StepQueue =>
    case StepTask => TaskStopIsNarrow(s);
    case StepWorker => WorkerStopChanges(s);
    case _ => PlainKeepsClients(s, l);
  }

  lemma PlainKeepsClients(s: Pool, l: ShutLabel)
    requires Plain(l) && ShutNext(s, l).Some?
    ensures ShutNext(s, l).value.wg == s.wg
    ensures ShutNext(s, l).value.clients == s.clients && ShutNext(s, l).value.cfg == s.cfg
    ensures ShutNext(s, l).value.loc == s.loc && ShutNext(s, l).value.tasks == s.tasks
  {
    if Ending(l) {
      EndingKeepsClients(s, l);
    }
  }

  predicate Ending(l: ShutLabel) {
    l.PollEnd? || l.StepErrs? || l.Finish? || l.StepSignal?
  }

  lemma EndingKeepsClients(s: Pool, l: ShutLabel)
    requires Ending(l) && ShutNext(s, l).Some?
    ensures ShutNext(s, l).value.wg == s.wg
    ensures ShutNext(s, l).value.clients == s.clients && ShutNext(s, l).value.cfg == s.cfg
    ensures ShutNext(s, l).value.loc == s.loc && ShutNext(s, l).value.tasks == s.tasks
    ensures ShutNext(s, l).value.queue == s.queue
  {
    match l
    case PollEnd => PollEndShape(s);
    case StepErrs => ErrsShape(s);
    case Finish => FinishShape(s);
    case StepSignal => SignalShape(s);
  }

  lemma ErrsShape(s: Pool)
    requires ErrsNext(s).Some?
    ensures var n := ErrsNext(s).value; n == s.(ctl := n.ctl, errs := n.errs)
  {
  }

  lemma FinishShape(s: Pool)
    requires FinishNext(s).Some?
    ensures var n := FinishNext(s).value; n == s.(ctl := n.ctl)
  {
  }

  lemma ClientKeepsList(s: Pool, c: ClientId, l: ClientLabel)
    requires ClientNext(s, c, l).Some?
    ensures var n := ClientNext(s, c, l).value;
      n.cfg == s.cfg && n.clients == s.clients[c := n.clients[c]] && n.clients[c].tasks == s.clients[c].tasks
  {
  }

  /** Only a client's own steps change the client, and none changes its list or the settings. */
  lemma ListsStay(s: Pool, l: Label, c: ClientId)
    requires c in s.clients && Next(s, l).Some?
    ensures var n := Next(s, l).value;
      && n.cfg == s.cfg && c in n.clients && n.clients[c].tasks == s.clients[c].tasks
      && (!l.OfClient? || l.c != c ==> n.clients[c] == s.clients[c])
  {
    match l
    case OfClient(d, cl) => ClientKeepsList(s, d, cl);
    case Shut(sl) => ShutKeepsClients(s, sl);
    case _ =>
  }

  // ----- Quiescence -----

  /** Every worker terminated with no run call left, and no process call under way. */
  ghost predicate Quiescent(s: Pool) {
    && (forall w: nat :: w < |s.workers| ==> AtRest(s.workers[w]))
    && (forall t :: t in s.tasks ==> s.tasks[t].pc.Unlocked?)
  }

  predicate AtRest(k: Worker) {
    k.state.Terminated? && (k.pc.NotRunning? || k.pc.Releasing?) && k.spawned == 0 && k.failing == 0
  }

  ghost predicate SameStarts(a: map<TaskId, T.Task>, b: map<TaskId, T.Task>) {
    a.Keys == b.Keys && forall t :: t in a ==> b[t].life.starts == a[t].life.starts
  }

  lemma AllTerminatedIsQuiescent(s: Pool)
    requires Good(s) && SeenAll(s.ctl)
    ensures Quiescent(s)
  {
    forall w: nat | w < |s.workers|
      ensures AtRest(s.workers[w])
    {
      assert TerminatedAt(s.workers, w);
      assert WorkerInv(w, s.workers[w], s.errs.items, s.ctl.runner);
    }
    forall t | t in s.tasks
      ensures s.tasks[t].pc.Unlocked?
    {
      ActiveIsProcessed(s, t);
    }
  }

  /** A task in process is in the hands of a worker that is processing it. */
  lemma ActiveIsProcessed(s: Pool, t: TaskId)
    requires HoldInv(s.workers, s.loc) && TasksInv(s.tasks, s.loc, s.workers) && t in s.tasks
    ensures !s.tasks[t].pc.Unlocked? ==>
              && s.loc[t].Held? && s.loc[t].w < |s.workers| && Processing(s.workers[s.loc[t].w].pc)
  {
    assert PlaceInv(s.tasks[t], s.loc[t], s.workers);
  }

  lemma QuiescentWorkerStep(s: Pool, w: WorkerId, l: WorkerLabel)
    requires Quiescent(s) && WorkerNext(s, w, l).Some?
    ensures WorkerNext(s, w, l).value.tasks == s.tasks && WorkerNext(s, w, l).value.ctl == s.ctl
  {
    assert AtRest(s.workers[w]);
  }

  /** Once the shutdown has ended, only the end of Stop is left of it. */
  lemma StoppedShutStep(s: Pool, l: ShutLabel)
    requires CtlInv(s.ctl, s.queue.closed, s.errs.closed) && s.ctl.outcome.Some? && ShutNext(s, l).Some?
    ensures l.StepSignal?
  {
    assert s.ctl.shut.Off? || s.ctl.shut.SignalRunner? || s.ctl.shut.CloseSignal? || s.ctl.shut.Unlocking?;
  }

  lemma StoppedRunnerStep(s: Pool, l: RunnerLabel)
    requires CtlInv(s.ctl, s.queue.closed, s.errs.closed) && s.ctl.outcome.Some? && RunnerNext(s, l).Some?
    ensures RunnerNext(s, l).value.ctl.outcome == s.ctl.outcome && RunnerNext(s, l).value.tasks == s.tasks
  {
  }

  lemma StoppedStep(s: Pool, l: Label)
    requires CtlInv(s.ctl, s.queue.closed, s.errs.closed) && s.ctl.outcome.Some? && Next(s, l).Some?
    requires !l.OfWorker?
    ensures Next(s, l).value.ctl.outcome == s.ctl.outcome && SameStarts(s.tasks, Next(s, l).value.tasks)
  {
    match l
    case Runner(rl) => StoppedRunnerStep(s, rl);
    case Shut(sl) =>
      StoppedShutStep(s, sl);
      SignalShape(s);
    case _ =>
  }

  lemma QuiescentStep(s: Pool, l: Label)
    requires Good(s) && s.ctl.outcome == Some(Completed) && Next(s, l).Some?
    ensures Next(s, l).value.ctl.outcome == Some(Completed) && SameStarts(s.tasks, Next(s, l).value.tasks)
  {
    AllTerminatedIsQuiescent(s);
    if l.OfWorker? {
      QuiescentWorkerStep(s, l.w, l.wl);
    } else {
      StoppedStep(s, l);
    }
  }

  lemma {:induction false} QuiescentRun(s: Pool, labels: seq<Label>)
    requires Good(s) && s.ctl.outcome == Some(Completed) && Run(s, labels).Some?
    ensures var n := Run(s, labels).value;
      Good(n) && n.ctl.outcome == Some(Completed) && SameStarts(s.tasks, n.tasks)
    decreases |labels|
  {
    if labels != [] {
      NextKeepsInv(s, labels[0]);
      NextKeepsShutdown(s, labels[0]);
      QuiescentStep(s, labels[0]);
      QuiescentRun(Next(s, labels[0]).value, labels[1..]);
    }
  }

  /** Once a shutdown has ended without timeout and without a panic, every worker is terminated, no process
      call is under way, and in no continuation does any handler start again. */
  lemma QuiescenceOnceCompleted(s: Pool, labels: seq<Label>)
    requires Good(s) && s.ctl.outcome == Some(Completed) && Run(s, labels).Some?
    ensures Quiescent(s) && Quiescent(Run(s, labels).value) && SameStarts(s.tasks, Run(s, labels).value.tasks)
  {
    QuiescentRun(s, labels);
    AllTerminatedIsQuiescent(s);
    AllTerminatedIsQuiescent(Run(s, labels).value);
  }

  // ----- The pool's life cycle -----

  function Rank(state: PoolState): nat {
    match state
    case PoolNew => 0
    case BgRunning => 1
    case ShuttingDown => 2
    case TerminateTimeout => 3
    case PoolShutdown => 4
  }

  predicate Onward(s: Pool, n: Pool) {
    Rank(s.ctl.state) <= Rank(n.ctl.state) && (s.queue.closed ==> n.queue.closed)
  }

  lemma RunnerGoesOnward(s: Pool, l: RunnerLabel)
    requires RunnerNext(s, l).Some?
    ensures Onward(s, RunnerNext(s, l).value)
  {
  }

  lemma EndGoesOnward(s: Pool, l: ShutLabel)
    requires ShutInv(s.ctl, s.queue.closed, s.errs.closed) && ShutNext(s, l).Some? && Ending(l)
    ensures Onward(s, ShutNext(s, l).value)
  {
    match l
    case PollEnd => assert PollEndNext(s).value.ctl.state == s.ctl.state;
    case StepErrs => assert ErrsNext(s).value.ctl.state == s.ctl.state;
    case Finish => assert FinishNext(s).value.ctl.state == PoolShutdown;
    case StepSignal => assert SignalNext(s).value.ctl.state == s.ctl.state;
  }

  lemma ChooseGoesOnward(s: Pool, w: WorkerId)
    requires ChooseNext(s, w).Some?
    ensures Onward(s, ChooseNext(s, w).value)
  {
  }

  lemma ShutGoesOnward(s: Pool, l: ShutLabel)
    requires ShutInv(s.ctl, s.queue.closed, s.errs.closed) && ShutNext(s, l).Some?
    ensures Onward(s, ShutNext(s, l).value)
  {
    if l.StepTask? {
      TaskStaysMiddle(s);
    } else if l.StepWorker? {
      WorkerStaysMiddle(s);
    } else if l.Choose? {
      ChooseGoesOnward(s, l.w);
    } else if Ending(l) {
      EndGoesOnward(s, l);
    }
  }

  /** One step never takes the pool's state back and never reopens the task queue. */
  lemma LifeCycleStep(s: Pool, l: Label)
    requires ShutInv(s.ctl, s.queue.closed, s.errs.closed) && Next(s, l).Some? && !l.OfWorker?
    ensures Onward(s, Next(s, l).value)
  {
    match l
    case Runner(rl) => RunnerGoesOnward(s, rl);
    case Shut(sl) => ShutGoesOnward(s, sl);
    case _ =>
  }

  lemma WorkerKeepsLifeCycle(s: Pool, w: WorkerId, l: WorkerLabel)
    requires WorkerNext(s, w, l).Some?
    ensures WorkerNext(s, w, l).value.ctl == s.ctl && WorkerNext(s, w, l).value.queue.closed == s.queue.closed
  {
  }

  lemma {:induction false} StateNeverGoesBack(s: Pool, labels: seq<Label>)
    requires Good(s) && Run(s, labels).Some?
    ensures var n := Run(s, labels).value;
      && Rank(s.ctl.state) <= Rank(n.ctl.state)
      && (s.queue.closed ==> n.queue.closed)
      && (n.ctl.lock.Free? ==> n.ctl.state.PoolNew? || n.ctl.state.BgRunning? || n.ctl.state.PoolShutdown?)
      && (n.ctl.shut.CloseQueue? ==> !n.queue.closed)
    decreases |labels|
  {
    if labels != [] {
      NextKeepsInv(s, labels[0]);
      NextKeepsShutdown(s, labels[0]);
      if labels[0].OfWorker? {
        WorkerKeepsLifeCycle(s, labels[0].w, labels[0].wl);
      } else {
        LifeCycleStep(s, labels[0]);
      }
      StateNeverGoesBack(Next(s, labels[0]).value, labels[1..]);
    }
  }

  // ----- AddTask against Stop -----

  /** Tasks that have not been sent stay unsent. */
  ghost predicate KeepsUnsent(a: map<TaskId, Loc>, b: map<TaskId, Loc>) {
    a.Keys <= b.Keys && forall t :: t in a && a[t].Fresh? ==> b[t].Fresh?
  }

  lemma ClosedQueueStep(s: Pool, l: Label)
    requires QueueInv(s.queue.items, s.loc) && HoldInv(s.workers, s.loc)
    requires s.queue.closed && Next(s, l).Some?
    ensures KeepsUnsent(s.loc, Next(s, l).value.loc)
  {
    match l
    case OfWorker(w, wl) => WorkerKeepsUnsent(s, w, wl);
    case Shut(sl) => ShutKeepsGone(s, sl);
    case _ =>
  }

  lemma WorkerKeepsUnsent(s: Pool, w: WorkerId, l: WorkerLabel)
    requires QueueInv(s.queue.items, s.loc) && HoldInv(s.workers, s.loc) && WorkerNext(s, w, l).Some?
    ensures KeepsUnsent(s.loc, WorkerNext(s, w, l).value.loc)
  {
    if l.LosePanic? || l.ClearTask? {
      assert HeldTask(s.workers[w].pc) == Some(s.workers[w].pc.t);
    }
  }

  /** No enqueue succeeds once the queue is closed, in any continuation. */
  lemma {:induction false} NoEnqueueAfterClose(s: Pool, labels: seq<Label>)
    requires Good(s) && s.queue.closed && Run(s, labels).Some?
    ensures KeepsUnsent(s.loc, Run(s, labels).value.loc)
    decreases |labels|
  {
    if labels != [] {
      var n := Next(s, labels[0]).value;
      NextKeepsInv(s, labels[0]);
      NextKeepsShutdown(s, labels[0]);
      ClosedQueueStep(s, labels[0]);
      assert Run(s, labels[..1]) == Some(n) by { assert labels[..1][1..] == []; }
      StateNeverGoesBack(s, labels[..1]);
      NoEnqueueAfterClose(n, labels[1..]);
    }
  }

  /** The AddTask call of this client is before its state test, or has failed at it. */
  predicate Refused(k: Client) {
    k.pc.Check? || k.pc == Return(false)
  }

  lemma RefusedStep(s: Pool, l: Label, c: ClientId)
    requires s.ctl.state.PoolShutdown? && c in s.clients && Refused(s.clients[c]) && Next(s, l).Some?
    ensures var n := Next(s, l).value;
      c in n.clients && Refused(n.clients[c]) && n.clients[c].i == s.clients[c].i
  {
    ListsStay(s, l, c);
    if l.OfClient? && l.c == c {
      assert l.cl.TestPool?;
    }
  }

  /** After Stop has ended, an AddTask call that comes to its state test fails there, counts nothing
      and never gets its task into the queue; and nothing but the lock makes it wait. */
  lemma {:induction false} AddAfterStopFails(s: Pool, labels: seq<Label>, c: ClientId)
    requires Good(s) && s.ctl.state.PoolShutdown? && Run(s, labels).Some?
    requires c in s.clients && Refused(s.clients[c])
    ensures var n := Run(s, labels).value;
      && c in n.clients && Refused(n.clients[c]) && n.clients[c].i == s.clients[c].i
      && (n.ctl.lock.Free? && n.clients[c].pc.Check? ==> ClientNext(n, c, TestPool).Some?)
    decreases |labels|
  {
    if labels != [] {
      var n := Next(s, labels[0]).value;
      NextKeepsInv(s, labels[0]);
      NextKeepsShutdown(s, labels[0]);
      RefusedStep(s, labels[0], c);
      assert Run(s, labels[..1]) == Some(n) by { assert labels[..1][1..] == []; }
      StateNeverGoesBack(s, labels[..1]);
      AddAfterStopFails(n, labels[1..], c);
    } else if s.clients[c].pc.Check? {
      assert ClientInv(s.clients[c]);
      assert s.clients[c].tasks[s.clients[c].i].value in s.tasks;
    }
  }

  // ----- Drained and lost tasks -----

  predicate Gone(loc: Loc) {
    loc.Discarded? || loc.Lost?
  }

  ghost predicate KeepsGone(a: map<TaskId, Loc>, b: map<TaskId, Loc>) {
    a.Keys <= b.Keys && forall t :: t in a && Gone(a[t]) ==> b[t] == a[t]
  }

  lemma WorkerKeepsGone(s: Pool, w: WorkerId, l: WorkerLabel)
    requires QueueInv(s.queue.items, s.loc) && HoldInv(s.workers, s.loc) && WorkerNext(s, w, l).Some?
    ensures KeepsGone(s.loc, WorkerNext(s, w, l).value.loc)
    ensures WorkerNext(s, w, l).value.tasks.Keys == s.tasks.Keys
  {
    if l.LosePanic? || l.ClearTask? {
      assert HeldTask(s.workers[w].pc) == Some(s.workers[w].pc.t);
    }
  }

  lemma ClientKeepsGone(s: Pool, c: ClientId, l: ClientLabel)
    requires ClientsInv(s) && ClientNext(s, c, l).Some?
    ensures KeepsGone(s.loc, ClientNext(s, c, l).value.loc)
    ensures ClientNext(s, c, l).value.tasks.Keys == s.tasks.Keys
  {
    var k := s.clients[c];
    if k.i < |k.tasks| && k.tasks[k.i].Some? {
      assert OwnerInv(s, k.tasks[k.i].value);
    }
  }

  lemma ShutKeepsGone(s: Pool, l: ShutLabel)
    requires QueueInv(s.queue.items, s.loc) && ShutNext(s, l).Some?
    ensures KeepsGone(s.loc, ShutNext(s, l).value.loc) && KeepsUnsent(s.loc, ShutNext(s, l).value.loc)
    ensures ShutNext(s, l).value.tasks.Keys == s.tasks.Keys
  {
    if Plain(l) {
      PlainKeepsClients(s, l);
    } else if l.StepTask? {
    } else if l.StepWorker? {
    } else {
    }
  }

  lemma GoneStep(s: Pool, l: Label)
    requires QueueInv(s.queue.items, s.loc) && HoldInv(s.workers, s.loc) && ClientsInv(s) && Next(s, l).Some?
    ensures KeepsGone(s.loc, Next(s, l).value.loc) && Next(s, l).value.tasks.Keys == s.tasks.Keys
  {
    match l
    case OfWorker(w, wl) => WorkerKeepsGone(s, w, wl);
    case OfClient(c, cl) => ClientKeepsGone(s, c, cl);
    case Shut(sl) => ShutKeepsGone(s, sl);
    case _ =>
  }

  lemma GoneIsOutstanding(s: Pool, t: TaskId, c: ClientId)
    requires TasksInv(s.tasks, s.loc, s.workers) && ClientsInv(s) && WgInv(s.wg, s.tasks, s.added)
    requires t in s.tasks && Gone(s.loc[t]) && Owned(s, t) && s.cfg.slot[t].0 == c
    ensures c in s.wg && s.wg[c] > 0
  {
    assert OwnerInv(s, t) && PlaceInv(s.tasks[t], s.loc[t], s.workers) && L.TaskInv(s.tasks[t]);
    assert t in Outstanding(s.tasks, s.added, c);
  }

  lemma WaitsForGone(s: Pool, l: Label, t: TaskId, c: ClientId)
    requires c in s.clients && c in s.wg && s.wg[c] > 0 && s.clients[c].pc != Return(true) && Next(s, l).Some?
    ensures c in Next(s, l).value.clients && Next(s, l).value.clients[c].pc != Return(true)
  {
    ListsStay(s, l, c);
    if l.OfClient? && l.c == c {
      assert !l.cl.SeeZero?;
    }
  }

  /** A group that has returned nil has its counter at zero. */
  ghost predicate ReturnedAtZero(s: Pool) {
    forall c :: c in s.clients && s.clients[c].pc == Return(true) ==> c in s.wg && s.wg[c] == 0
  }

  lemma WorkerKeepsZero(s: Pool, w: WorkerId, l: WorkerLabel)
    requires WorkerNext(s, w, l).Some?
    ensures var n := WorkerNext(s, w, l).value;
      n.clients == s.clients && forall c :: c in s.wg && s.wg[c] == 0 ==> c in n.wg && n.wg[c] == 0
  {
  }

  lemma ReturnedStep(s: Pool, l: Label)
    requires ReturnedAtZero(s) && Next(s, l).Some?
    ensures ReturnedAtZero(Next(s, l).value)
  {
    match l
    case OfWorker(w, wl) => WorkerKeepsZero(s, w, wl);
    case Shut(sl) => ShutKeepsClients(s, sl);
    case OfClient(c, cl) => ClientKeepsZero(s, c, cl);
    case _ =>
  }

  lemma ClientKeepsZero(s: Pool, c: ClientId, l: ClientLabel)
    requires ReturnedAtZero(s) && ClientNext(s, c, l).Some?
    ensures ReturnedAtZero(ClientNext(s, c, l).value)
  {
  }

  lemma {:induction false} ReturnedRun(s: Pool, labels: seq<Label>)
    requires ReturnedAtZero(s) && Run(s, labels).Some?
    ensures ReturnedAtZero(Run(s, labels).value)
    decreases |labels|
  {
    if labels != [] {
      ReturnedStep(s, labels[0]);
      ReturnedRun(Next(s, labels[0]).value, labels[1..]);
    }
  }

  lemma ReachableReturnedAtZero(s: Pool)
    requires Reachable(s)
    ensures ReturnedAtZero(s)
  {
    var start: Pool, labels: seq<Label> :| Init(start) && Run(start, labels) == Some(s);
    ReturnedRun(start, labels);
  }

  lemma {:induction false} GoneRun(s: Pool, labels: seq<Label>, t: TaskId, c: ClientId)
    requires Good(s) && t in s.tasks && Gone(s.loc[t]) && Run(s, labels).Some?
    requires Owned(s, t) && s.cfg.slot[t].0 == c && s.clients[c].pc != Return(true)
    ensures var n := Run(s, labels).value;
      && t in n.tasks && t in n.loc && n.loc[t] == s.loc[t]
      && n.tasks[t].life.starts == 0 && n.tasks[t].life.signals == 0 && n.tasks[t].err == T.NoErr
      && c in n.clients && n.clients[c].pc != Return(true)
    decreases |labels|
  {
    if labels == [] {
      assert PlaceInv(s.tasks[t], s.loc[t], s.workers) && L.TaskInv(s.tasks[t]) && L.RecordInv(s.tasks[t]);
    } else {
      NextKeepsInv(s, labels[0]);
      NextKeepsShutdown(s, labels[0]);
      GoneStep(s, labels[0]);
      GoneIsOutstanding(s, t, c);
      WaitsForGone(s, labels[0], t, c);
      ListsStay(s, labels[0], c);
      GoneRun(Next(s, labels[0]).value, labels[1..], t, c);
    }
  }

  lemma GoneIsOwned(s: Pool, t: TaskId)
    requires TasksInv(s.tasks, s.loc, s.workers) && ClientsInv(s) && t in s.tasks && Gone(s.loc[t])
    ensures Owned(s, t)
  {
    assert OwnerInv(s, t);
  }

  /** A task that a SOFT or HARD shutdown took out of the queue, or that was lost with its worker, is
      never started, never signalled and never given an error; and its RunTasksGroupWG has not returned
      nil and never does. */
  lemma DrainedIsNeverSignalled(s: Pool, labels: seq<Label>, t: TaskId)
    requires Reachable(s) && t in s.tasks && t in s.loc && Gone(s.loc[t]) && Run(s, labels).Some?
    ensures var n := Run(s, labels).value;
      && t in n.tasks && t in n.loc && n.loc[t] == s.loc[t]
      && n.tasks[t].life.starts == 0 && n.tasks[t].life.signals == 0 && n.tasks[t].err == T.NoErr
      && Owned(s, t) && s.cfg.slot[t].0 in n.clients && n.clients[s.cfg.slot[t].0].pc != Return(true)
  {
    ReachableIsGood(s);
    ReachableReturnedAtZero(s);
    GoneIsOwned(s, t);
    GoneIsOutstanding(s, t, s.cfg.slot[t].0);
    GoneRun(s, labels, t, s.cfg.slot[t].0);
  }

  // ----- Panics during the shutdown -----

  /** HARD stops a task whose channel another Stop call has closed. */
  predicate SecondStop(s: Pool) {
    && (s.ctl.shut.TaskSend? || s.ctl.shut.TaskClose?) && s.ctl.shut.mode.Hard?
    && s.ctl.shut.t in s.tasks && s.tasks[s.ctl.shut.t].stop.ch.closed
  }

  /** HARD has found a worker with a task, and the task is gone when it is read again. */
  predicate TaskVanished(s: Pool) {
    && s.ctl.shut.WorkerLoad? && s.ctl.shut.mode.Hard?
    && s.ctl.shut.w < |s.workers| && s.workers[s.ctl.shut.w].task.None?
  }

  /** A shutdown is cut short at two steps of HARD only: the queue, the error channel and the workers'
      channels are never closed twice. */
  lemma AbortHasTwoCauses(s: Pool, l: Label)
    requires Reachable(s) && Next(s, l).Some?
    requires Aborting(Next(s, l).value.ctl) && !Aborting(s.ctl)
    ensures SecondStop(s) || TaskVanished(s)
  {
    ReachableIsGood(s);
    if l.Shut? {
      AbortStep(s, l.sl);
    } else {
      OthersNeverAbort(s, l);
    }
  }

  predicate Aborting(c: Control) {
    c.shut.Finishing? && c.shut.how.Aborted?
  }

  lemma WorkerTaskAborts(s: Pool)
    requires StopsInv(s.ctl.shut, s.tasks, s.loc) && (s.ctl.shut.WorkerTask? || s.ctl.shut.WorkerLoad?)
    requires WorkerTaskNext(s).Some? && Aborting(WorkerTaskNext(s).value.ctl)
    ensures TaskVanished(s)
  {
  }

  lemma WorkerTestNeverAborts(s: Pool)
    requires (s.ctl.shut.TestIdle? || s.ctl.shut.TestStop?) && WorkerTestNext(s).Some?
    ensures !Aborting(WorkerTestNext(s).value.ctl)
  {
  }

  lemma WorkerSignalNeverAborts(s: Pool)
    requires ChannelsInv(s.ctl, s.workers) && (s.ctl.shut.WorkerSend? || s.ctl.shut.WorkerClose?)
    requires WorkerStopNext(s).Some?
    ensures !Aborting(WorkerStopNext(s).value.ctl)
  {
  }

  lemma WorkerStopAborts(s: Pool)
    requires ChannelsInv(s.ctl, s.workers) && StopsInv(s.ctl.shut, s.tasks, s.loc)
    requires WorkerStopNext(s).Some? && Aborting(WorkerStopNext(s).value.ctl)
    ensures TaskVanished(s)
  {
    if s.ctl.shut.WorkerTask? || s.ctl.shut.WorkerLoad? {
      WorkerTaskAborts(s);
    } else if s.ctl.shut.TestIdle? || s.ctl.shut.TestStop? {
      WorkerTestNeverAborts(s);
    } else {
      WorkerSignalNeverAborts(s);
    }
  }

  lemma TaskStopAborts(s: Pool)
    requires StopsInv(s.ctl.shut, s.tasks, s.loc) && TaskNext(s).Some? && Aborting(TaskNext(s).value.ctl)
    ensures SecondStop(s)
  {
  }

  lemma EndNeverAborts(s: Pool, l: ShutLabel)
    requires ShutInv(s.ctl, s.queue.closed, s.errs.closed) && ShutNext(s, l).Some? && !Aborting(s.ctl)
    requires Ending(l)
    ensures !Aborting(ShutNext(s, l).value.ctl)
  {
  }

  lemma RestNeverAborts(s: Pool, l: ShutLabel)
    requires ShutInv(s.ctl, s.queue.closed, s.errs.closed) && ShutNext(s, l).Some?
    requires !l.StepTask? && !l.StepWorker? && !Aborting(s.ctl)
    ensures !Aborting(ShutNext(s, l).value.ctl)
  {
    if Ending(l) {
      EndNeverAborts(s, l);
    }
  }

  lemma OthersNeverAbort(s: Pool, l: Label)
    requires Next(s, l).Some? && !l.Shut? && !Aborting(s.ctl)
    ensures !Aborting(Next(s, l).value.ctl)
  {
    match l
    case OfWorker(w, wl) => WorkerKeepsLifeCycle(s, w, wl);
    case Runner(rl) => RunnerNeverAborts(s, rl);
    case _ =>
  }

  lemma RunnerNeverAborts(s: Pool, l: RunnerLabel)
    requires RunnerNext(s, l).Some? && !Aborting(s.ctl)
    ensures !Aborting(RunnerNext(s, l).value.ctl)
  {
  }

  lemma AbortStep(s: Pool, l: ShutLabel)
    requires CtlInv(s.ctl, s.queue.closed, s.errs.closed) && ShutdownInv(s) && ShutNext(s, l).Some?
    requires Aborting(ShutNext(s, l).value.ctl) && !Aborting(s.ctl)
    ensures (l.StepTask? && SecondStop(s)) || (l.StepWorker? && TaskVanished(s))
  {
    if l.StepTask? {
      TaskStopAborts(s);
    } else if l.StepWorker? {
      WorkerStopAborts(s);
    } else {
      RestNeverAborts(s, l);
    }
  }
}
