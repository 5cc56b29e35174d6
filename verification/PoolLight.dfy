/**
A run that shows what LIGHT does not do: the pool stops in order, and a task it
had accepted is still in the queue.
*/
module PoolLight {
  import opened Options
  import T = Tasks
  import opened PoolMachine
  import opened PoolTheorems
  import opened PoolRuns
  import opened PoolSettle
  import opened PoolLightExact

  const SHORT_TASK := T.Task(T.Ready, T.Unlocked, -1, false, None, T.StopSide(T.OPEN_EMPTY, 0, 0, 0),
                             T.RunSide(T.OPEN_EMPTY, T.Stopped, true, T.NoHandler), T.NoErr, [], T.InUse, false,
                             T.Life(1, T.Pending, 0, 0, 0, 0))

  /** One worker, a queue of one, one client with one short task. */
  const START := Pool(Config(1, 1, 0, 0, 0, map[0 := (0, 0)]),
                      Control(PoolNew, Free, NotStarted, Off, None, T.OPEN_EMPTY, true, true),
                      Fifo([], false), Fifo([], false), [], map[0 := Client([Some(0)], 0, Loop)], map[0 := 0],
                      map[0 := SHORT_TASK], map[0 := Fresh], {})

  const READY_WORKER := Worker(Idle, Receive, 0, 0, Some(T.OPEN_EMPTY), None)

  /** The pool runs and its worker waits for a task. */
  const IDLE := START.(
    ctl := Control(BgRunning, Free, Selecting, Off, None, T.OPEN_EMPTY, true, true), workers := [READY_WORKER])

  /** The pool runs and its worker has not begun. */
  const OPENED := IDLE.(workers := [NewWorker()])

  lemma ReachOpened()
    ensures Reaches(START, OPENED)
  {
    assert Run(START, []) == Some(START);
    var c := START.ctl.(state := BgRunning, lock := StartLock, runner := Spawning);
    var s1 := START.(ctl := c);
    Step(START, START, Runner(StartRun), s1);
    var s2 := s1.(workers := [NewWorker()]);
    Step(START, s1, Runner(SpawnWorker), s2);
    Step(START, s2, Runner(Ready), OPENED);
  }

  lemma ReachIdle()
    ensures Reaches(START, IDLE)
  {
    ReachOpened();
    var k := NewWorker().(spawned := 0, pc := CheckRun);
    StepWorkerTo(OPENED, TryRun, k);
    StepWorkerTo(OPENED.(workers := [k]), TestState, k.(state := Idle, pc := MakeStop));
    var k1 := k.(state := Idle, pc := Top, stop := Some(T.OPEN_EMPTY));
    StepWorkerTo(OPENED.(workers := [k.(state := Idle, pc := MakeStop)]), CreateStop, k1);
    StepWorkerTo(OPENED.(workers := [k1]), GoReceive, READY_WORKER);
  }

  lemma StepWorkerTo(n: Pool, l: WorkerLabel, k: Worker)
    requires Reaches(START, n) && |n.workers| == 1
    requires LocalNext(n.ctl.ctxLive, n.queue, n.workers[0], l) == Some(k)
    ensures Reaches(START, n.(workers := [k]))
  {
    assert n.workers[0 := k] == [k];
    Step(START, n, OfWorker(0, l), n.(workers := [k]));
  }

  /** The client has added its task; the worker has not taken it. */
  const LOADED := IDLE.(
    queue := Fifo([0], false), clients := map[0 := Client([Some(0)], 1, Loop)], wg := map[0 := 1],
    tasks := map[0 := SHORT_TASK.(wg := Some(0))], loc := map[0 := Queued], added := {0})

  const ADDING := Client([Some(0)], 0, SetWg)

  lemma ReachCheck()
    ensures Reaches(START, IDLE.(clients := map[0 := ADDING.(pc := Check)], tasks := LOADED.tasks))
  {
    ReachIdle();
    var s1 := IDLE.(clients := map[0 := ADDING]);
    Step(START, IDLE, OfClient(0, Advance), s1);
    Step(START, s1, OfClient(0, AssignWg), s1.(clients := map[0 := ADDING.(pc := Check)], tasks := LOADED.tasks));
  }

  const COUNTED := IDLE.(
    clients := map[0 := ADDING.(pc := Send)], tasks := LOADED.tasks, wg := map[0 := 1], added := {0})

  lemma ReachCounted()
    ensures Reaches(START, COUNTED)
  {
    ReachCheck();
    var s2 := IDLE.(clients := map[0 := ADDING.(pc := Check)], tasks := LOADED.tasks);
    var s3 := s2.(clients := map[0 := ADDING.(pc := AddWg)]);
    Step(START, s2, OfClient(0, TestPool), s3);
    Step(START, s3, OfClient(0, CountWg), COUNTED);
  }

  lemma ReachLoaded()
    ensures Reaches(START, LOADED)
  {
    ReachCounted();
    var sent := LOADED.(clients := map[0 := ADDING.(pc := Sent)]);
    Step(START, COUNTED, OfClient(0, SendTask), sent);
    Step(START, sent, OfClient(0, AddReturns), LOADED);
  }

  lemma StartIsInit()
    ensures Init(START)
  {
  }

  lemma FromStart(n: Pool)
    requires Reaches(START, n)
    ensures Reachable(n)
  {
    StartIsInit();
  }

  lemma LoadedIsReachable()
    ensures Reachable(LOADED)
  {
    ReachLoaded();
    FromStart(LOADED);
  }

  lemma LoadedIsIdle()
    ensures LOADED.ctl.lock.Free? && LOADED.ctl.state.BgRunning? && !LOADED.ctl.runner.Locking?
    ensures AllReceiving(LOADED) && NoneHangs(LOADED)
  {
  }

  /** LIGHT is said to finish every task taken into the queue.  It does not: Stop(LIGHT) can end in
      order, with no timeout, while an accepted task is still queued, ready and not started. */
  lemma LightLeavesTasks() returns (n: Pool)
    ensures Reachable(LOADED) && ShutNext(LOADED, CallStop(Light)).Some?
    ensures Reaches(ShutNext(LOADED, CallStop(Light)).value, n) && n.ctl.outcome == Some(Completed)
    ensures n.queue.items == [0] && 0 in n.tasks && n.tasks[0].state.Ready? && Accepted(n, 0)
  {
    LoadedIsReachable();
    LoadedIsIdle();
    StopBegins(LOADED, Light);
    var start := ShutNext(LOADED, CallStop(Light)).value;
    assert Run(start, []) == Some(start);
    n := StopsInOrder(start, start);
  }
}
