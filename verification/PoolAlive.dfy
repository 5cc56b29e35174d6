/** While the task queue is open no worker has terminated and none has lost its restart token. */
module PoolAlive {
  import opened Options
  import T = Tasks
  import opened PoolMachine
  import opened PoolInvariant
  import opened PoolShutSteps
  import opened PoolShutdown
  import opened PoolTheorems
  import opened PoolStop

  predicate AliveWorker(w: WorkerId, k: Worker, errs: seq<WorkerId>, runner: RunnerPc) {
    Tokens(w, k, errs, runner) == 1 && !k.pc.Terminating? && !k.state.Terminated?
  }

  ghost predicate AllAlive(workers: seq<Worker>, errs: seq<WorkerId>, runner: RunnerPc) {
    forall w: nat :: w < |workers| ==> AliveWorker(w, workers[w], errs, runner)
  }

  /** RunBG leaves its loop, and cancels the workers' context, only after the queue was closed. */
  predicate ContextInv(c: Control, queueClosed: bool) {
    && (!c.ctxLive ==> c.runner.Ended?)
    && (c.runner.Returning? || c.runner.Ended? ==> queueClosed)
  }

  ghost predicate Alive(s: Pool) {
    ContextInv(s.ctl, s.queue.closed) && (!s.queue.closed ==> AllAlive(s.workers, s.errs.items, s.ctl.runner))
  }

  // ----- The context -----

  lemma RunnerKeepsContext(s: Pool, l: RunnerLabel)
    requires CtlInv(s.ctl, s.queue.closed, s.errs.closed) && ContextInv(s.ctl, s.queue.closed)
    requires RunnerNext(s, l).Some?
    ensures ContextInv(RunnerNext(s, l).value.ctl, RunnerNext(s, l).value.queue.closed)
  {
  }

  lemma ShutKeepsContext(s: Pool, l: ShutLabel)
    requires CtlInv(s.ctl, s.queue.closed, s.errs.closed) && ContextInv(s.ctl, s.queue.closed)
    requires ShutNext(s, l).Some?
    ensures ContextInv(ShutNext(s, l).value.ctl, ShutNext(s, l).value.queue.closed)
  {
    ShutGoesOnward(s, l);
    match l
    case StepTask => TaskStaysMiddle(s);
    case StepWorker => WorkerStaysMiddle(s);
    case StepQueue => QueueKeepsCtl(s);
    case Choose(w) => ChooseShape(s, w);
    case PollEnd => PollEndShape(s);
    case StepErrs =>
    case Finish =>
    case StepSignal => SignalShape(s);
    case _ =>
  }

  // ----- The workers -----

  lemma RunnerKeepsAlive(s: Pool, l: RunnerLabel)
    requires ErrsInv(s.errs.items, |s.workers|, s.ctl.runner) && AllAlive(s.workers, s.errs.items, s.ctl.runner)
    requires RunnerNext(s, l).Some?
    ensures var n := RunnerNext(s, l).value; AllAlive(n.workers, n.errs.items, n.ctl.runner)
  {
    var n := RunnerNext(s, l).value;
    forall w: nat | w < |n.workers|
      ensures AliveWorker(w, n.workers[w], n.errs.items, n.ctl.runner)
    {
      if w < |s.workers| {
        assert AliveWorker(w, s.workers[w], s.errs.items, s.ctl.runner);
        assert l.RecvErr? ==> (w in s.errs.items <==> w == s.errs.items[0] || w in n.errs.items);
      }
    }
  }

  /** Before the queue is closed no stop channel has been signalled. */
  lemma OpenIsUnsignalled(s: Pool, w: WorkerId)
    requires CtlInv(s.ctl, s.queue.closed, s.errs.closed) && ChannelsInv(s.ctl, s.workers)
    requires !s.queue.closed && w < |s.workers| && s.workers[w].stop.Some?
    ensures s.workers[w].stop == Some(T.OPEN_EMPTY)
  {
    assert Unvisited(s.ctl.shut, s.ctl.state, w);
  }

  lemma LocalKeepsAlive(w: WorkerId, k: Worker, errs: seq<WorkerId>, runner: RunnerPc, queue: Fifo<TaskId>, l: WorkerLabel)
    requires AliveWorker(w, k, errs, runner) && !queue.closed && (k.stop.Some? ==> k.stop == Some(T.OPEN_EMPTY))
    requires LocalNext(true, queue, k, l).Some?
    ensures AliveWorker(w, LocalNext(true, queue, k, l).value, errs, runner)
  {
  }

  /** The worker's token stays with it, or moves into the channel. */
  lemma RestKeepsAlive(s: Pool, w: WorkerId, l: WorkerLabel)
    requires w < |s.workers| && AliveWorker(w, s.workers[w], s.errs.items, s.ctl.runner)
    requires l.ReportTaken? || l.ReportState? || l.ReportPanic? || l.TakeTask? || l.LosePanic? || l.ClearTask?
             || l.EnterTask? || l.InTask? || l.LeaveTask?
    requires WorkerNext(s, w, l).Some?
    ensures var n := WorkerNext(s, w, l).value;
      && n.ctl == s.ctl && n.workers == s.workers[w := n.workers[w]]
      && (n.errs.items == s.errs.items || n.errs.items == s.errs.items + [w])
      && AliveWorker(w, n.workers[w], n.errs.items, n.ctl.runner)
  {
    var n := WorkerNext(s, w, l).value;
    if l.ReportTaken? || l.ReportState? || l.ReportPanic? {
      assert w in n.errs.items;
    }
  }

  lemma OthersStayAlive(workers: seq<Worker>, w: WorkerId, u: Worker, errs: seq<WorkerId>, more: seq<WorkerId>, runner: RunnerPc)
    requires AllAlive(workers, errs, runner) && w < |workers| && AliveWorker(w, u, more, runner)
    requires more == errs || more == errs + [w]
    ensures AllAlive(workers[w := u], more, runner)
  {
    var after := workers[w := u];
    forall v: nat | v < |after|
      ensures AliveWorker(v, after[v], more, runner)
    {
      assert AliveWorker(v, workers[v], errs, runner);
      assert v != w ==> (v in more <==> v in errs);
    }
  }

  lemma WorkerKeepsAlive(s: Pool, w: WorkerId, l: WorkerLabel)
    requires CtlInv(s.ctl, s.queue.closed, s.errs.closed) && ChannelsInv(s.ctl, s.workers)
    requires Alive(s) && !s.queue.closed && WorkerNext(s, w, l).Some?
    ensures var n := WorkerNext(s, w, l).value; AllAlive(n.workers, n.errs.items, n.ctl.runner)
  {
    var n := WorkerNext(s, w, l).value;
    assert AliveWorker(w, s.workers[w], s.errs.items, s.ctl.runner);
    if l.ReportTaken? || l.ReportState? || l.ReportPanic? || l.TakeTask? || l.LosePanic? || l.ClearTask?
       || l.EnterTask? || l.InTask? || l.LeaveTask? {
      RestKeepsAlive(s, w, l);
    } else {
      if s.workers[w].stop.Some? {
        OpenIsUnsignalled(s, w);
      }
      LocalKeepsAlive(w, s.workers[w], s.errs.items, s.ctl.runner, s.queue, l);
    }
    OthersStayAlive(s.workers, w, n.workers[w], s.errs.items, n.errs.items, s.ctl.runner);
  }

  /** A step of the shutdown after which the queue is still open is the call of Stop. */
  lemma ShutKeepsAlive(s: Pool, l: ShutLabel)
    requires CtlInv(s.ctl, s.queue.closed, s.errs.closed) && ShutNext(s, l).Some?
    requires !s.queue.closed && !ShutNext(s, l).value.queue.closed
    ensures var n := ShutNext(s, l).value;
      n.workers == s.workers && n.errs == s.errs && n.ctl.runner == s.ctl.runner
  {
    assert s.ctl.shut.Off? || s.ctl.shut.CloseQueue?;
  }

  lemma RunnerStepKeepsAlive(s: Pool, l: RunnerLabel)
    requires CtlInv(s.ctl, s.queue.closed, s.errs.closed) && ErrsInv(s.errs.items, |s.workers|, s.ctl.runner)
    requires Alive(s) && RunnerNext(s, l).Some?
    ensures Alive(RunnerNext(s, l).value)
  {
    RunnerKeepsContext(s, l);
    RunnerGoesOnward(s, l);
    if !s.queue.closed {
      RunnerKeepsAlive(s, l);
    }
  }

  lemma ShutStepKeepsAlive(s: Pool, l: ShutLabel)
    requires CtlInv(s.ctl, s.queue.closed, s.errs.closed) && Alive(s) && ShutNext(s, l).Some?
    ensures Alive(ShutNext(s, l).value)
  {
    ShutKeepsContext(s, l);
    ShutGoesOnward(s, l);
    if !ShutNext(s, l).value.queue.closed {
      ShutKeepsAlive(s, l);
    }
  }

  lemma WorkerStepKeepsAlive(s: Pool, w: WorkerId, l: WorkerLabel)
    requires CtlInv(s.ctl, s.queue.closed, s.errs.closed) && ChannelsInv(s.ctl, s.workers)
    requires Alive(s) && WorkerNext(s, w, l).Some?
    ensures Alive(WorkerNext(s, w, l).value)
  {
    WorkerKeepsLifeCycle(s, w, l);
    if !s.queue.closed {
      WorkerKeepsAlive(s, w, l);
    }
  }

  lemma StepKeepsAlive(s: Pool, l: Label)
    requires CtlInv(s.ctl, s.queue.closed, s.errs.closed) && ErrsInv(s.errs.items, |s.workers|, s.ctl.runner)
    requires ChannelsInv(s.ctl, s.workers) && Alive(s) && Next(s, l).Some?
    ensures Alive(Next(s, l).value)
  {
    match l
    case Runner(rl) => RunnerStepKeepsAlive(s, rl);
    case Shut(sl) => ShutStepKeepsAlive(s, sl);
    case OfWorker(w, wl) => WorkerStepKeepsAlive(s, w, wl);
    case _ =>
  }

  lemma {:induction false} AliveRun(s: Pool, labels: seq<Label>)
    requires Good(s) && Alive(s) && Run(s, labels).Some?
    ensures Alive(Run(s, labels).value)
    decreases |labels|
  {
    if labels != [] {
      NextKeepsInv(s, labels[0]);
      NextKeepsShutdown(s, labels[0]);
      StepKeepsAlive(s, labels[0]);
      AliveRun(Next(s, labels[0]).value, labels[1..]);
    }
  }

  lemma InitIsGood(s: Pool)
    requires Init(s)
    ensures Good(s) && Alive(s)
  {
    InitHasInv(s);
  }

  /** While the queue is open every worker has exactly one of: a run call, an unread error, a restart under way. */
  lemma ReachableIsAlive(s: Pool)
    requires Reachable(s)
    ensures Alive(s)
  {
    var start: Pool, labels: seq<Label> :| Init(start) && Run(start, labels) == Some(s);
    InitIsGood(start);
    AliveRun(start, labels);
  }
}
