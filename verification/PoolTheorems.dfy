/**
The guarantees of the background pool, over every interleaving of every run:
conservation of tasks, single execution, wait-group accounting, restart tokens,
quiescence after Stop, and the race between AddTask and Stop.
*/
module PoolTheorems {
  import opened Options
  import opened Counting
  import T = Tasks
  import L = TaskLife
  import opened PoolMachine
  import opened PoolInvariant
  import opened PoolShutSteps
  import opened PoolShutdown

  ghost predicate Good(s: Pool) {
    Inv(s) && ShutdownInv(s)
  }

  ghost predicate Reachable(s: Pool) {
    exists start: Pool, labels: seq<Label> :: Init(start) && Run(start, labels) == Some(s)
  }

  lemma {:induction false} RunKeepsGood(s: Pool, labels: seq<Label>)
    requires Good(s) && Run(s, labels).Some?
    ensures Good(Run(s, labels).value)
    decreases |labels|
  {
    if labels != [] {
      NextKeepsInv(s, labels[0]);
      NextKeepsShutdown(s, labels[0]);
      RunKeepsGood(Next(s, labels[0]).value, labels[1..]);
    }
  }

  lemma ReachableIsGood(s: Pool)
    requires Reachable(s)
    ensures Good(s)
  {
    var start: Pool, labels: seq<Label> :| Init(start) && Run(start, labels) == Some(s);
    InitHasInv(start);
    RunKeepsGood(start, labels);
  }

  // ----- Conservation of tasks and single execution -----

  /** AddTask has returned nil for this task. */
  predicate Accepted(s: Pool, t: TaskId) {
    Owned(s, t) && s.cfg.slot[t].1 < s.clients[s.cfg.slot[t].0].i
  }

  /** AddTask has sent this task; it has returned nil, is about to return, or has panicked after the send. */
  predicate SentIn(s: Pool, t: TaskId) {
    Owned(s, t) && Handed(s.clients[s.cfg.slot[t].0], s.cfg.slot[t].1)
  }

  function Holders(workers: seq<Worker>, t: TaskId): set<WorkerId> {
    set w: nat | w < |workers| && HeldTask(workers[w].pc) == Some(t)
  }

  lemma HoldersOf(s: Pool, t: TaskId)
    requires HoldInv(s.workers, s.loc) && t in s.loc
    ensures Holders(s.workers, t) == if s.loc[t].Held? then {s.loc[t].w} else {}
  {
  }

  lemma {:induction false} DistinctMultiplicity(xs: seq<TaskId>, t: TaskId)
    requires forall i: nat, j: nat :: i < j < |xs| ==> xs[i] != xs[j]
    ensures multiset(xs)[t] == One(t in xs)
  {
    if xs != [] {
      DistinctMultiplicity(xs[1..], t);
      assert xs == [xs[0]] + xs[1..];
      assert xs[0] !in xs[1..];
    }
  }

  lemma QueuedOnce(s: Pool, t: TaskId)
    requires QueueInv(s.queue.items, s.loc) && t in s.loc
    ensures multiset(s.queue.items)[t] == One(s.loc[t].Queued?)
  {
    DistinctMultiplicity(s.queue.items, t);
  }

  /** Every task AddTask has sent is in exactly one place: once in the queue, held by one worker,
      finished, taken out by a shutdown, or lost to a panic between dequeuing and processing it; a
      task not sent is in none of them.  What was accepted was sent, and what was sent is accepted
      unless AddTask has yet to return or has panicked. */
  lemma TaskConservation(s: Pool, t: TaskId)
    requires Reachable(s) && t in s.tasks
    ensures t in s.loc
    ensures multiset(s.queue.items)[t] + |Holders(s.workers, t)|
            + One(s.loc[t].Finished?) + One(s.loc[t].Discarded?) + One(s.loc[t].Lost?)
            == One(SentIn(s, t))
    ensures Accepted(s, t) ==> SentIn(s, t)
    ensures SentIn(s, t) && !Accepted(s, t) ==>
              s.clients[s.cfg.slot[t].0].pc.Sent? || s.clients[s.cfg.slot[t].0].pc.ReturnLate?
  {
    ReachableIsGood(s);
    assert OwnerInv(s, t);
    QueuedOnce(s, t);
    HoldersOf(s, t);
  }

  /** The handler starts at most once and the completion signal comes at most once, after it; a
      finished task ran, and a queued, drained or lost one did not. */
  lemma SingleExecution(s: Pool, t: TaskId)
    requires Reachable(s) && t in s.tasks
    ensures t in s.loc
    ensures var h := s.tasks[t].life;
      && h.signals + h.failed <= h.starts <= 1
      && (s.loc[t].Finished? ==> h.starts == 1 && h.signals + h.failed == 1)
      && (s.loc[t].Queued? || s.loc[t].Discarded? || s.loc[t].Lost? || s.loc[t].Fresh? ==> h.starts == 0)
  {
    ReachableIsGood(s);
    assert PlaceInv(s.tasks[t], s.loc[t], s.workers) && L.TaskInv(s.tasks[t]);
  }

  /** process is never refused: a worker finds its task unlocked, and then ready. */
  lemma ProcessIsNeverRefused(s: Pool, w: WorkerId)
    requires Reachable(s) && w < |s.workers| && Processing(s.workers[w].pc)
    ensures s.workers[w].pc.t in s.tasks
    ensures s.workers[w].pc.Entering? ==>
      s.tasks[s.workers[w].pc.t].pc.Unlocked? && s.tasks[s.workers[w].pc.t].state.Ready?
    ensures s.workers[w].pc.Inside? && s.tasks[s.workers[w].pc.t].pc.Locked? ==>
      s.tasks[s.workers[w].pc.t].state.Ready?
  {
    ReachableIsGood(s);
    var t := s.workers[w].pc.t;
    assert HeldTask(s.workers[w].pc) == Some(t);
    assert s.loc[t] == Held(w);
    assert PlaceInv(s.tasks[t], s.loc[t], s.workers);
  }

  function Active(tasks: map<TaskId, T.Task>): set<TaskId> {
    set t | t in tasks && !tasks[t].pc.Unlocked?
  }

  lemma {:induction false} InjectionBound(ts: set<TaskId>, loc: map<TaskId, Loc>, n: nat)
    requires forall t :: t in ts ==> t in loc && loc[t].Held? && loc[t].w < n
    requires forall t, u :: t in ts && u in ts && loc[t] == loc[u] ==> t == u
    ensures |ts| <= n
    decreases n
  {
    if n == 0 {
      forall t
        ensures t !in ts
      {
      }
      assert ts == {};
    } else if exists t :: t in ts && loc[t].w == n - 1 {
      var t :| t in ts && loc[t].w == n - 1;
      InjectionBound(ts - {t}, loc, n - 1);
    } else {
      InjectionBound(ts, loc, n - 1);
    }
  }

  /** At most workerConcurrency tasks are in process at any moment. */
  lemma ConcurrencyIsBounded(s: Pool)
    requires Reachable(s)
    ensures |Active(s.tasks)| <= s.cfg.concurrency
  {
    ReachableIsGood(s);
    var ts := Active(s.tasks);
    forall t | t in ts
      ensures t in s.loc && s.loc[t].Held? && s.loc[t].w < |s.workers|
    {
      assert PlaceInv(s.tasks[t], s.loc[t], s.workers);
    }
    forall t, u | t in ts && u in ts && s.loc[t] == s.loc[u]
      ensures t == u
    {
      assert HeldTask(s.workers[s.loc[t].w].pc) == Some(t) && HeldTask(s.workers[s.loc[u].w].pc) == Some(u);
    }
    InjectionBound(ts, s.loc, |s.workers|);
  }

  // ----- Wait groups -----

  /** A client's counter is the number of its tasks counted and not yet signalled, so it is never
      negative, and the step that signals always finds it positive. */
  lemma WaitGroupConservation(s: Pool, c: ClientId)
    requires Reachable(s) && c in s.clients
    ensures c in s.wg && s.wg[c] == |Outstanding(s.tasks, s.added, c)|
    ensures forall t :: t in s.tasks && s.tasks[t].wg == Some(c) && s.tasks[t].pc.SignalWg? ==> s.wg[c] > 0
  {
    ReachableIsGood(s);
    forall t | t in s.tasks && s.tasks[t].wg == Some(c) && s.tasks[t].pc.SignalWg?
      ensures s.wg[c] > 0
    {
      assert L.TaskInv(s.tasks[t]) && PlaceInv(s.tasks[t], s.loc[t], s.workers);
      assert OwnerInv(s, t);
      assert t in Outstanding(s.tasks, s.added, c);
    }
  }

  /** When a short task of the pool signals its completion, its outcome can be read exactly when the handler
      returned: a panic is recorded only after the signal. */
  lemma ShortSignalTellsReturnsOnly(s: Pool, t: TaskId)
    requires Reachable(s) && t in s.tasks && T.IsShort(s.tasks[t]) && s.tasks[t].pc.SignalWg?
    ensures L.Told(s.tasks[t]) <==> s.tasks[t].life.outcome.Returned?
  {
    ReachableIsGood(s);
    L.SignalBeforeRecord(s.tasks[t]);
  }

  /** In every reachable pool a task that was interrupted says why: while its handler still runs err is the
      interruption, and afterwards it is that or what the handler ended with; a task that panicked says so. */
  lemma InterruptedTellsWhy(s: Pool, t: TaskId)
    requires Reachable(s) && t in s.tasks
    ensures var u := s.tasks[t];
      && (u.state.TerminatedTimeout? ==> u.err == T.TimeoutErr || L.Told(u))
      && (u.state.TerminatedTimeout? && u.run.handler.HandlerRunning? ==> u.err == T.TimeoutErr)
      && (u.state.TerminatedStop? ==> u.err == T.StopErr || L.Told(u))
      && (u.state.TerminatedStop? && u.run.handler.HandlerRunning? ==> u.err == T.StopErr)
      && (u.state.RecoverErr? ==> u.err == T.PanicErr || (!T.IsShort(u) && L.Told(u)))
  {
    ReachableIsGood(s);
    assert L.RecordInv(s.tasks[t]);
  }

  /** The task of this list entry was accepted, ran once, was signalled once, and what its handler
      returned can be read. */
  predicate Delivered(s: Pool, t: TaskId) {
    && Accepted(s, t) && t in s.tasks && t in s.loc
    && s.tasks[t].life.starts == 1 && s.tasks[t].life.signals == 1
    && (T.IsShort(s.tasks[t]) && s.tasks[t].life.outcome.Returned? ==> L.Told(s.tasks[t]))
    && (s.tasks[t].state.DoneSuccess? ==> L.Told(s.tasks[t]))
  }

  /** RunTasksGroupWG returns nil only when every task of the list that is not nil is delivered. */
  lemma GroupReturnsAfterAll(s: Pool, c: ClientId, j: nat)
    requires Reachable(s) && ClientNext(s, c, SeeZero).Some?
    requires j < |s.clients[c].tasks| && s.clients[c].tasks[j].Some?
    ensures Delivered(s, s.clients[c].tasks[j].value)
  {
    ReachableIsGood(s);
    var t := s.clients[c].tasks[j].value;
    assert ClientInv(s.clients[c]);
    assert t in s.tasks && s.cfg.slot[t] == (c, j);
    assert OwnerInv(s, t);
    assert L.TaskInv(s.tasks[t]) && L.RecordInv(s.tasks[t]);
    assert Outstanding(s.tasks, s.added, c) == {};
    assert t !in Outstanding(s.tasks, s.added, c);
  }

  // ----- Restart tokens -----

  lemma {:induction false} DistinctBelow(xs: seq<WorkerId>, n: nat)
    requires forall i: nat :: i < |xs| ==> xs[i] < n
    requires forall i: nat, j: nat :: i < j < |xs| ==> xs[i] != xs[j]
    ensures |xs| <= n
    decreases n
  {
    if xs == [] {
      return;
    }
    assert xs[0] < n;
    if n - 1 in xs {
      var i: nat :| i < |xs| && xs[i] == n - 1;
      var ys := xs[..i] + xs[i + 1..];
      assert forall k: nat :: k < |ys| ==> ys[k] == xs[if k < i then k else k + 1];
      DistinctBelow(ys, n - 1);
    } else {
      DistinctBelow(xs, n - 1);
    }
  }

  /** A run call that is about to send on workerErrCh. */
  predicate Reporter(k: Worker) {
    k.failing > 0 || k.pc.BadState? || k.pc.Reporting?
  }

  /** Each worker has at most one of: a run call that has not reported, an unread error, a restart
      under way; so the channel never holds more than workerConcurrency errors. */
  lemma OneTokenEach(s: Pool, w: WorkerId)
    requires Reachable(s) && w < |s.workers|
    ensures Tokens(w, s.workers[w], s.errs.items, s.ctl.runner) <= 1
    ensures |s.errs.items| <= s.cfg.concurrency
  {
    ReachableIsGood(s);
    assert WorkerInv(w, s.workers[w], s.errs.items, s.ctl.runner);
    DistinctBelow(s.errs.items, |s.workers|);
  }

  /** A report never blocks, no run is ever refused for the worker's state, and a second run call meets
      the lock only while the first, having reported, is on its way out. */
  lemma ReportsNeverBlock(s: Pool, w: WorkerId)
    requires Reachable(s) && w < |s.workers|
    ensures Reporter(s.workers[w]) ==> |s.errs.items| < s.cfg.concurrency
    ensures !s.workers[w].pc.BadState?
    ensures s.workers[w].spawned + s.workers[w].failing > 0 ==>
      s.workers[w].pc.NotRunning? || s.workers[w].pc.Releasing?
  {
    ReachableIsGood(s);
    assert WorkerInv(w, s.workers[w], s.errs.items, s.ctl.runner);
    if Reporter(s.workers[w]) {
      var more := s.errs.items + [w];
      assert w !in s.errs.items;
      DistinctBelow(more, |s.workers|);
    }
  }

  /** The shutdown gave up waiting, or was cut short by a panic. */
  predicate GaveUp(c: Control) {
    || (c.outcome.Some? && !c.outcome.value.Completed?)
    || (c.shut.DrainErrs? && c.shut.timedOut)
    || (c.shut.Finishing? && !c.shut.how.Completed?)
  }

  lemma ClosedAfterAll(c: Control, queueClosed: bool)
    requires CtlInv(c, queueClosed, true) && !GaveUp(c)
    ensures SeenAll(c)
  {
    if c.outcome.Some? {
      assert c.outcome == Some(Completed);
    } else if c.shut.DrainErrs? {
      assert c.shut == DrainErrs(false);
    }
  }

  /** Unless the shutdown gave up, workerErrCh is closed only when nobody is left to send on it. */
  lemma NoReportAfterClose(s: Pool, w: WorkerId)
    requires Reachable(s) && w < |s.workers| && s.errs.closed && !GaveUp(s.ctl)
    ensures !Reporter(s.workers[w])
  {
    ReachableIsGood(s);
    ClosedAfterAll(s.ctl, s.queue.closed);
    assert TerminatedAt(s.workers, w);
    assert WorkerInv(w, s.workers[w], s.errs.items, s.ctl.runner);
  }
}
