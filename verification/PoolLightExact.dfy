/**
When LIGHT does what it promises: as long as no worker hangs, exactly when no
task is queued and no AddTask call is past its state test.
*/
module PoolLightExact {
  import opened Options
  import T = Tasks
  import opened PoolMachine
  import opened PoolInvariant
  import opened PoolShutSteps
  import opened PoolShutdown
  import opened PoolTheorems
  import opened PoolStop
  import opened PoolAlive
  import opened PoolSettle
  import opened PoolRuns

  predicate Adding(k: Client) {
    k.pc.AddWg? || k.pc.Send?
  }

  /** No AddTask call is past its state test. */
  ghost predicate NobodyAdding(clients: map<ClientId, Client>) {
    forall c :: c in clients ==> !Adding(clients[c])
  }

  /** Whenever the shutdown ends in order, no task is left in the queue. */
  ghost predicate LeavesNothing(s: Pool) {
    forall n: Pool :: Reaches(s, n) && n.ctl.outcome == Some(Completed) ==> n.queue.items == []
  }

  /** Stop(LIGHT) on any running pool with nothing queued or on its way leaves nothing in the queue. */
  lemma LightLeavesNothing(s: Pool)
    requires Reachable(s) && s.ctl.lock.Free? && s.ctl.state.BgRunning?
    requires s.queue.items == [] && NobodyAdding(s.clients)
    ensures ShutNext(s, CallStop(Light)).Some? && LeavesNothing(ShutNext(s, CallStop(Light)).value)
  {
    ReachableIsGood(s);
    var stopping := ShutNext(s, CallStop(Light)).value;
    NextKeepsInv(s, Shut(CallStop(Light)));
    NextKeepsShutdown(s, Shut(CallStop(Light)));
    forall n: Pool | Reaches(stopping, n)
      ensures n.queue.items == []
    {
      var labels: seq<Label> :| Run(stopping, labels) == Some(n);
      EmptyRun(stopping, labels);
    }
  }

  /** LIGHT is said to finish every task taken into the queue.  Unless a worker hangs or the pool is already
      stopping itself, it keeps that promise exactly when there is no such task, nor will be. */
  lemma LightFinishesExactly(s: Pool)
    requires Reachable(s) && s.ctl.lock.Free? && s.ctl.state.BgRunning? && !s.ctl.runner.Locking? && NoneHangs(s)
    ensures ShutNext(s, CallStop(Light)).Some?
    ensures LeavesNothing(ShutNext(s, CallStop(Light)).value) <==> s.queue.items == [] && NobodyAdding(s.clients)
  {
    if s.queue.items == [] && NobodyAdding(s.clients) {
      LightLeavesNothing(s);
    } else {
      var n := LightLeaves(s);
    }
  }

  // ----- A run that leaves a task -----

  lemma StopBegins(s: Pool, mode: Mode)
    requires Reachable(s) && s.ctl.lock.Free? && s.ctl.state.BgRunning? && !s.ctl.runner.Locking? && NoneHangs(s)
    ensures ShutNext(s, CallStop(mode)).Some?
    ensures var n := ShutNext(s, CallStop(mode)).value;
      Beginning(n) && n == s.(ctl := n.ctl) && n.ctl.shut == CloseQueue(mode)
  {
    ReachableIsGood(s);
    ReachableIsAlive(s);
    NextKeepsInv(s, Shut(CallStop(mode)));
    NextKeepsShutdown(s, Shut(CallStop(mode)));
    StepKeepsAlive(s, Shut(CallStop(mode)));
    var n := ShutNext(s, CallStop(mode)).value;
    forall w: nat | w < |n.workers|
      ensures WorkerGoesOn(n.workers[w], n.tasks, n.cfg.workerTimeout)
    {
      assert WorkerGoesOn(s.workers[w], s.tasks, s.cfg.workerTimeout);
    }
  }

  lemma LightLeaves(s: Pool) returns (n: Pool)
    requires Reachable(s) && s.ctl.lock.Free? && s.ctl.state.BgRunning? && !s.ctl.runner.Locking? && NoneHangs(s)
    requires s.queue.items != [] || !NobodyAdding(s.clients)
    ensures ShutNext(s, CallStop(Light)).Some?
    ensures Reaches(ShutNext(s, CallStop(Light)).value, n)
    ensures n.ctl.outcome == Some(Completed) && n.queue.items != []
  {
    StopBegins(s, Light);
    var start := ShutNext(s, CallStop(Light)).value;
    AloneFromItself(start);
    var loaded := start;
    if s.queue.items == [] {
      loaded := SomeoneAdds(start);
    }
    var waiting := Settle(start, loaded);
    AloneIsReached(start, waiting);
    n := StopsInOrder(start, waiting);
  }

  /** Before the queue is closed, an AddTask call that has passed its test can still enqueue its task. */
  lemma SomeoneAdds(s: Pool) returns (n: Pool)
    requires Beginning(s) && !NobodyAdding(s.clients) && s.queue.items == []
    ensures Loaded(s, n)
  {
    var c: ClientId :| c in s.clients && Adding(s.clients[c]);
    n := OneAdds(s, c);
  }

  /** The same stop with something in the queue, and the workers as they were. */
  ghost predicate Loaded(s: Pool, n: Pool) {
    && ReachesAlone(s, n) && Beginning(n) && n.queue.items != [] && n.ctl == s.ctl
    && n.workers == s.workers && n.tasks == s.tasks && n.cfg == s.cfg
    && forall t :: t in n.loc ==> t in s.loc && (n.loc[t] == s.loc[t] || s.loc[t].Fresh?)
  }

  lemma OneAdds(s: Pool, c: ClientId) returns (n: Pool)
    requires Beginning(s) && c in s.clients && Adding(s.clients[c]) && s.queue.items == []
    ensures Loaded(s, n)
  {
    AloneFromItself(s);
    if s.clients[c].pc.AddWg? {
      AddStep(s, c, CountWg);
      StepAlone(s, s, OfClient(c, CountWg));
      n := OneSends(s, Next(s, OfClient(c, CountWg)).value, c);
    } else {
      n := OneSends(s, s, c);
    }
  }

  lemma OneSends(start: Pool, s: Pool, c: ClientId) returns (n: Pool)
    requires ReachesAlone(start, s) && Beginning(s) && s.queue.items == [] && c in s.clients && s.clients[c].pc.Send?
    requires s.ctl == start.ctl && s.workers == start.workers && s.tasks == start.tasks && s.cfg == start.cfg && s.loc == start.loc
    ensures Loaded(start, n)
  {
    AddStep(s, c, SendTask);
    StepAlone(start, s, OfClient(c, SendTask));
    n := Next(s, OfClient(c, SendTask)).value;
  }

  /** What such a step of AddTask does. */
  ghost predicate Adds(s: Pool, n: Pool, c: ClientId, l: ClientLabel) {
    && n.ctl == s.ctl && n.workers == s.workers && n.tasks == s.tasks && n.cfg == s.cfg && c in n.clients
    && (if l.CountWg? then n.clients[c].pc.Send? && n.queue.items == [] && n.loc == s.loc
        else n.queue.items != [] && forall t :: t in n.loc ==> t in s.loc && (n.loc[t] == s.loc[t] || s.loc[t].Fresh?))
  }

  lemma AddStep(s: Pool, c: ClientId, l: ClientLabel)
    requires Beginning(s) && s.queue.items == [] && c in s.clients
    requires (s.clients[c].pc.AddWg? && l.CountWg?) || (s.clients[c].pc.Send? && l.SendTask?)
    ensures ClientNext(s, c, l).Some?
    ensures var n := ClientNext(s, c, l).value; Beginning(n) && Adds(s, n, c, l)
  {
    AddGoesOn(s, c, l);
    NextKeepsInv(s, OfClient(c, l));
    NextKeepsShutdown(s, OfClient(c, l));
    StepKeepsAlive(s, OfClient(c, l));
  }

  lemma AddGoesOn(s: Pool, c: ClientId, l: ClientLabel)
    requires CtlInv(s.ctl, s.queue.closed, s.errs.closed) && ClientsInv(s) && NoneHangs(s) && s.ctl.shut.CloseQueue?
    requires s.queue.items == [] && s.cfg.queueSize > 0 && c in s.clients
    requires (s.clients[c].pc.AddWg? && l.CountWg?) || (s.clients[c].pc.Send? && l.SendTask?)
    ensures ClientNext(s, c, l).Some?
    ensures var n := ClientNext(s, c, l).value; NoneHangs(n) && Adds(s, n, c, l)
  {
    var k := s.clients[c];
    assert ClientInv(k);
    assert k.tasks[k.i].value in s.tasks && OwnerInv(s, k.tasks[k.i].value);
    var n := ClientNext(s, c, l).value;
    forall w: nat | w < |n.workers|
      ensures WorkerGoesOn(n.workers[w], n.tasks, n.cfg.workerTimeout)
    {
      assert WorkerGoesOn(s.workers[w], s.tasks, s.cfg.workerTimeout);
    }
  }

  // ----- An empty queue stays empty -----

  ghost predicate Emptied(s: Pool) {
    Rank(s.ctl.state) >= 2 && s.queue.items == [] && NobodyAdding(s.clients)
  }

  lemma EmptyClientStep(s: Pool, c: ClientId, l: ClientLabel)
    requires Emptied(s) && ClientNext(s, c, l).Some?
    ensures Emptied(ClientNext(s, c, l).value)
  {
    assert !Adding(s.clients[c]);
  }

  lemma EmptyWorkerStep(s: Pool, w: WorkerId, l: WorkerLabel)
    requires Emptied(s) && WorkerNext(s, w, l).Some?
    ensures Emptied(WorkerNext(s, w, l).value)
  {
  }

  lemma EmptyShutStep(s: Pool, l: ShutLabel)
    requires s.queue.items == [] && ShutNext(s, l).Some?
    ensures ShutNext(s, l).value.queue.items == []
  {
    match l
    case StepQueue =>
    case StepTask =>
    case StepWorker =>
    case _ =>
      if Ending(l) {
        EndingKeepsClients(s, l);
      }
  }

  lemma EmptyStep(s: Pool, l: Label)
    requires CtlInv(s.ctl, s.queue.closed, s.errs.closed) && Emptied(s) && Next(s, l).Some?
    ensures Emptied(Next(s, l).value)
  {
    if l.OfWorker? {
      EmptyWorkerStep(s, l.w, l.wl);
    } else {
      LifeCycleStep(s, l);
      match l
      case OfClient(c, cl) => EmptyClientStep(s, c, cl);
      case Shut(sl) =>
        EmptyShutStep(s, sl);
        ShutKeepsClients(s, sl);
      case _ =>
    }
  }

  lemma {:induction false} EmptyRun(s: Pool, labels: seq<Label>)
    requires Good(s) && Emptied(s) && Run(s, labels).Some?
    ensures Emptied(Run(s, labels).value)
    decreases |labels|
  {
    if labels != [] {
      NextKeepsInv(s, labels[0]);
      NextKeepsShutdown(s, labels[0]);
      EmptyStep(s, labels[0]);
      EmptyRun(Next(s, labels[0]).value, labels[1..]);
    }
  }

  // ----- The run in which no worker dequeues -----

  const SIGNALLED: Option<T.Chan> := Some(T.Chan(1, true))

  /** The first m workers have been sent their stop signal. */
  function Signalled(workers: seq<Worker>, m: nat): seq<Worker> {
    seq(|workers|, i requires 0 <= i < |workers| =>
      if i < m then workers[i].(stop := SIGNALLED) else workers[i])
  }

  /** All have been sent it, and the first m have ended. */
  function Ended(workers: seq<Worker>, m: nat): seq<Worker> {
    seq(|workers|, i requires 0 <= i < |workers| =>
      if i < m then workers[i].(stop := Some(T.Chan(0, true)), state := Terminated, pc := Releasing)
      else workers[i].(stop := SIGNALLED))
  }

  function From(s: Pool, m: nat): set<WorkerId> {
    set w | w in AllWorkers(s) && m <= w
  }

  /** The shutdown at this point, with the queue closed and as full as before. */
  function During(s: Pool, shut: ShutPc, workers: seq<Worker>): Pool {
    s.(ctl := s.ctl.(lock := StopLock, state := ShuttingDown, shut := shut),
       queue := s.queue.(closed := true), workers := workers)
  }

  ghost predicate Waiting(s: Pool) {
    forall w: nat :: w < |s.workers| ==>
      s.workers[w].pc.Receive? && s.workers[w].state.Idle? && s.workers[w].stop == Some(T.OPEN_EMPTY)
  }

  lemma IdleFacts(s: Pool)
    requires Beginning(s) && AllReceiving(s)
    ensures Waiting(s) && s.errs == Fifo([], false) && !s.queue.closed && s.ctl.outcome.None?
  {
    assert s.errs.items != [] ==> s.errs.items[0] in s.errs.items;
    forall w: nat | w < |s.workers|
      ensures s.workers[w].pc.Receive? && s.workers[w].state.Idle? && s.workers[w].stop == Some(T.OPEN_EMPTY)
      ensures w !in s.errs.items
    {
      assert WorkerInv(w, s.workers[w], s.errs.items, s.ctl.runner);
    }
  }

  /** Once all workers wait, the stop can end in order with the queue as full as it is. */
  lemma StopsInOrder(start: Pool, s: Pool) returns (n: Pool)
    requires Reaches(start, s) && Beginning(s) && s.ctl.shut == CloseQueue(Light) && AllReceiving(s)
    ensures Reaches(start, n) && n.ctl.outcome == Some(Completed) && n.queue.items == s.queue.items
    ensures n.tasks == s.tasks && n.clients == s.clients && n.cfg == s.cfg
  {
    IdleFacts(s);
    assert From(s, 0) == AllWorkers(s) && Signalled(s.workers, 0) == s.workers;
    Step(start, s, Shut(StepQueue), During(s, PickWorker(Light, From(s, 0)), Signalled(s.workers, 0)));
    SignalAll(start, s, 0);
    EndAll(start, s, 0);
    PollAll(start, s, 0);
    n := CloseDown(start, s);
  }

  lemma {:induction false} SignalAll(start: Pool, s: Pool, m: nat)
    requires Waiting(s) && m <= |s.workers|
    requires Reaches(start, During(s, PickWorker(Light, From(s, m)), Signalled(s.workers, m)))
    ensures Reaches(start, During(s, Poll(From(s, 0), false), Ended(s.workers, 0)))
    decreases |s.workers| - m
  {
    var all := Signalled(s.workers, m);
    var s0 := During(s, PickWorker(Light, From(s, m)), all);
    if m < |s.workers| {
      SignalOne(start, s, m);
      SignalAll(start, s, m + 1);
    } else {
      assert From(s, m) == {} && From(s, 0) == AllWorkers(s0);
      assert all == Ended(s.workers, 0);
      Step(start, s0, Shut(ChosenAll), During(s, Poll(From(s, 0), false), Ended(s.workers, 0)));
    }
  }

  lemma SignalOne(start: Pool, s: Pool, m: nat)
    requires Waiting(s) && m < |s.workers|
    requires Reaches(start, During(s, PickWorker(Light, From(s, m)), Signalled(s.workers, m)))
    ensures Reaches(start, During(s, PickWorker(Light, From(s, m + 1)), Signalled(s.workers, m + 1)))
  {
    var all := Signalled(s.workers, m);
    var rest := From(s, m + 1);
    var s1 := During(s, WorkerSend(Light, rest, m), all);
    ChooseIdle(start, s, m);
    var s2 := During(s, WorkerClose(Light, rest, m), all[m := all[m].(stop := Some(T.Chan(1, false)))]);
    Step(start, s1, Shut(StepWorker), s2);
    assert s2.workers[m := s2.workers[m].(stop := SIGNALLED)] == Signalled(s.workers, m + 1);
    Step(start, s2, Shut(StepWorker), During(s, PickWorker(Light, rest), Signalled(s.workers, m + 1)));
  }

  /** An idle worker is found idle at the last read of its state, and has a stop channel. */
  lemma ChooseIdle(start: Pool, s: Pool, m: nat)
    requires Waiting(s) && m < |s.workers|
    requires Reaches(start, During(s, PickWorker(Light, From(s, m)), Signalled(s.workers, m)))
    ensures Reaches(start, During(s, WorkerSend(Light, From(s, m + 1), m), Signalled(s.workers, m)))
  {
    var all := Signalled(s.workers, m);
    var rest := From(s, m + 1);
    assert m in From(s, m) && From(s, m) - {m} == rest;
    var s0 := During(s, PickWorker(Light, From(s, m)), all);
    var s1 := During(s, TestIdle(Light, rest, m), all);
    Step(start, s0, Shut(Choose(m)), s1);
    var s2 := During(s, TestStop(Light, rest, m), all);
    Step(start, s1, Shut(StepWorker), s2);
    Step(start, s2, Shut(StepWorker), During(s, WorkerSend(Light, rest, m), all));
  }

  lemma {:induction false} EndAll(start: Pool, s: Pool, m: nat)
    requires Waiting(s) && m <= |s.workers|
    requires Reaches(start, During(s, Poll(From(s, 0), false), Ended(s.workers, m)))
    ensures Reaches(start, During(s, Poll(From(s, 0), false), Ended(s.workers, |s.workers|)))
    decreases |s.workers| - m
  {
    if m < |s.workers| {
      EndOne(start, s, m);
      EndAll(start, s, m + 1);
    }
  }

  lemma EndOne(start: Pool, s: Pool, m: nat)
    requires Waiting(s) && m < |s.workers|
    requires Reaches(start, During(s, Poll(From(s, 0), false), Ended(s.workers, m)))
    ensures Reaches(start, During(s, Poll(From(s, 0), false), Ended(s.workers, m + 1)))
  {
    var poll := Poll(From(s, 0), false);
    var all := Ended(s.workers, m);
    var k := all[m].(stop := Some(T.Chan(0, true)), state := TerminatingStop, pc := Terminating);
    assert all[m].pc.Receive?;
    Step(start, During(s, poll, all), OfWorker(m, SeeStop), During(s, poll, all[m := k]));
    assert all[m := k][m := k.(state := Terminated, pc := Releasing)] == Ended(s.workers, m + 1);
    Step(start, During(s, poll, all[m := k]), OfWorker(m, MarkTerminated), During(s, poll, Ended(s.workers, m + 1)));
  }

  lemma {:induction false} PollAll(start: Pool, s: Pool, m: nat)
    requires m <= |s.workers|
    requires Reaches(start, During(s, Poll(From(s, m), false), Ended(s.workers, |s.workers|)))
    ensures Reaches(start, During(s, Poll({}, false), Ended(s.workers, |s.workers|)))
    decreases |s.workers| - m
  {
    var all := Ended(s.workers, |s.workers|);
    if m < |s.workers| {
      assert m in From(s, m) && From(s, m) - {m} == From(s, m + 1);
      assert all[m].state.Terminated?;
      Step(start, During(s, Poll(From(s, m), false), all), Shut(PollWorker(m)),
           During(s, Poll(From(s, m + 1), false), all));
      PollAll(start, s, m + 1);
    } else {
      assert From(s, m) == {};
    }
  }

  lemma CloseDown(start: Pool, s: Pool) returns (n: Pool)
    requires Reaches(start, During(s, Poll({}, false), Ended(s.workers, |s.workers|)))
    requires s.errs == Fifo([], false)
    ensures Reaches(start, n) && n.ctl.outcome == Some(Completed) && n.queue.items == s.queue.items
    ensures n.tasks == s.tasks && n.clients == s.clients && n.cfg == s.cfg
  {
    var all := Ended(s.workers, |s.workers|);
    Step(start, During(s, Poll({}, false), all), Shut(PollEnd), During(s, CloseErrs(false), all));
    var s1 := During(s, DrainErrs(false), all).(errs := Fifo([], true));
    Step(start, During(s, CloseErrs(false), all), Shut(StepErrs), s1);
    n := FinishDown(start, s, s1);
  }

  lemma FinishDown(start: Pool, s: Pool, s1: Pool) returns (n: Pool)
    requires s1 == During(s, DrainErrs(false), s1.workers).(errs := Fifo([], true)) && Reaches(start, s1)
    ensures Reaches(start, n) && n.ctl.outcome == Some(Completed) && n.queue.items == s.queue.items
    ensures n.tasks == s.tasks && n.clients == s.clients && n.cfg == s.cfg
  {
    var s2 := s1.(ctl := s1.ctl.(shut := Finishing(Completed)));
    Step(start, s1, Shut(StepErrs), s2);
    n := s2.(ctl := s2.ctl.(state := PoolShutdown, outcome := Some(Completed), shut := SignalRunner));
    Step(start, s2, Shut(Finish), n);
  }
}
