/**
The inductive invariant of module PoolMachine, part by part.  Each part reads
only the components it is about, so a step that leaves them alone keeps it.
*/
module PoolInvariant {
  import opened Options
  import opened Counting
  import T = Tasks
  import L = TaskLife
  import opened PoolMachine

  // ----- The lock, the runner and the shutdown -----

  predicate InLoop(r: RunnerPc) {
    !r.NotStarted? && !r.Spawning? && !r.InShutdown?
  }

  predicate LockInv(c: Control) {
    match c.lock
    case Free => c.shut.Off? && !c.runner.Spawning? && !c.runner.InShutdown?
    case StartLock => c.shut.Off? && c.runner.Spawning? && c.state.BgRunning?
    case StopLock => !c.shut.Off? && InLoop(c.runner)
    case RunnerStopLock =>
      !c.shut.Off? && !c.shut.SignalRunner? && !c.shut.CloseSignal? && !c.shut.Unlocking? && c.runner.InShutdown?
  }

  predicate ShutInv(c: Control, queueClosed: bool, errsClosed: bool) {
    match c.shut
    case Off => c.state.PoolNew? || c.state.BgRunning? || c.state.PoolShutdown?
    case CloseQueue(_) => c.state.ShuttingDown? && !queueClosed && !errsClosed
    case CloseErrs(late) => queueClosed && !errsClosed && c.state == if late then TerminateTimeout else ShuttingDown
    case DrainErrs(late) => queueClosed && errsClosed && c.state == if late then TerminateTimeout else ShuttingDown
    case Finishing(how) =>
      queueClosed && (!how.Aborted? ==> errsClosed) && (c.state.ShuttingDown? || c.state.TerminateTimeout?)
    case SignalRunner => c.state.PoolShutdown?
    case CloseSignal => c.state.PoolShutdown?
    case Unlocking => c.state.PoolShutdown?
    case _ => c.state.ShuttingDown? && queueClosed && !errsClosed
  }

  predicate StateInv(c: Control, queueClosed: bool, errsClosed: bool) {
    && (c.state.PoolNew? <==> c.runner.NotStarted?)
    && (c.state.PoolNew? ==> c.lock.Free?)
    && (c.state.PoolNew? || c.state.BgRunning? ==> c.shut.Off? && !queueClosed && !errsClosed)
    && (c.state.PoolShutdown? <==> c.outcome.Some?)
    && (c.outcome.Some? ==> queueClosed && (!c.outcome.value.Aborted? ==> errsClosed))
    && (!c.state.PoolShutdown? || c.shut.SignalRunner? ==> c.stopCh == T.OPEN_EMPTY)
  }

  predicate CtlInv(c: Control, queueClosed: bool, errsClosed: bool) {
    LockInv(c) && ShutInv(c, queueClosed, errsClosed) && StateInv(c, queueClosed, errsClosed)
  }

  predicate SizeInv(runner: RunnerPc, n: nat, concurrency: nat) {
    && n <= concurrency
    && (runner.NotStarted? ==> n == 0)
    && (!runner.NotStarted? && !runner.Spawning? ==> n == concurrency)
  }

  // ----- One restart token a worker -----

  /** A run call that holds the worker's mutex and has not reported or terminated. */
  predicate Live(pc: RunPc) {
    !pc.NotRunning? && !pc.Releasing?
  }

  /** Run calls that have not reported, and reports nobody has acted on. */
  function Tokens(w: WorkerId, k: Worker, errs: seq<WorkerId>, runner: RunnerPc): nat {
    k.spawned + k.failing + One(Live(k.pc)) + One(w in errs) + One(runner == Restarting(w))
  }

  predicate PcState(pc: RunPc, state: WorkerState) {
    match pc
    case NotRunning => state.WorkerNew? || state.WorkerRecoverErr? || state.Terminated?
    case CheckRun => state.WorkerNew? || state.WorkerRecoverErr?
    case BadState => false
    case Entering(_) => state.Working?
    case Inside(_) => state.Working?
    case After(_) => state.Working?
    case Reporting => state.WorkerRecoverErr?
    case Terminating =>
      state.Idle? || state.TerminatingCtx? || state.TerminatingStop? || state.TerminatingQueue?
    case Releasing => state.WorkerRecoverErr? || state.Terminated?
    case _ => state.Idle?
  }

  function HeldTask(pc: RunPc): Option<TaskId> {
    match pc
    case Got(t) => Some(t)
    case Entering(t) => Some(t)
    case Inside(t) => Some(t)
    case After(t) => Some(t)
    case _ => None
  }

  predicate Processing(pc: RunPc) {
    pc.Entering? || pc.Inside? || pc.After?
  }

  predicate WorkerInv(w: WorkerId, k: Worker, errs: seq<WorkerId>, runner: RunnerPc) {
    && Tokens(w, k, errs, runner) <= 1
    && (k.state.Terminated? ==> Tokens(w, k, errs, runner) == 0)
    && PcState(k.pc, k.state)
    && (Live(k.pc) && !k.pc.CheckRun? && !k.pc.MakeStop? ==> k.stop.Some?)
    && k.task == (if Processing(k.pc) then HeldTask(k.pc) else None)
  }

  ghost predicate WorkersInv(workers: seq<Worker>, errs: seq<WorkerId>, runner: RunnerPc) {
    forall w: nat :: w < |workers| ==> WorkerInv(w, workers[w], errs, runner)
  }

  ghost predicate ErrsInv(errs: seq<WorkerId>, n: nat, runner: RunnerPc) {
    && (forall i: nat :: i < |errs| ==> errs[i] < n)
    && (forall i: nat, j: nat :: i < j < |errs| ==> errs[i] != errs[j])
    && (runner.Restarting? ==> runner.w < n)
  }

  // ----- Every task in exactly one place -----

  ghost predicate QueueInv(queue: seq<TaskId>, loc: map<TaskId, Loc>) {
    && (forall i: nat :: i < |queue| ==> queue[i] in loc && loc[queue[i]] == Queued)
    && (forall i: nat, j: nat :: i < j < |queue| ==> queue[i] != queue[j])
    && (forall t :: t in loc && loc[t] == Queued ==> t in queue)
  }

  ghost predicate HoldInv(workers: seq<Worker>, loc: map<TaskId, Loc>) {
    && (forall w: nat :: w < |workers| && HeldTask(workers[w].pc).Some? ==>
          HeldTask(workers[w].pc).value in loc && loc[HeldTask(workers[w].pc).value] == Held(w))
    && (forall t :: t in loc && loc[t].Held? ==>
          loc[t].w < |workers| && HeldTask(workers[loc[t].w].pc) == Some(t))
  }

  // ----- What a task's place says about its state -----

  predicate Waiting(t: T.Task) {
    t.state.Ready? && t.pc.Unlocked?
  }

  predicate Processed(t: T.Task) {
    t.pc.Unlocked? && t.life.starts == 1
  }

  predicate PlaceInv(t: T.Task, loc: Loc, workers: seq<Worker>) {
    match loc
    case Finished => Processed(t)
    case Held(w) =>
      w < |workers| &&
      (match workers[w].pc
       case Inside(_) => !t.pc.Unlocked? && (t.pc.Locked? ==> t.state.Ready?) && (t.pc.Unlocking? ==> t.life.starts == 1)
       case After(_) => Processed(t)
       case _ => Waiting(t))
    case _ => Waiting(t)
  }

  ghost predicate TasksInv(tasks: map<TaskId, T.Task>, loc: map<TaskId, Loc>, workers: seq<Worker>) {
    && loc.Keys == tasks.Keys
    && (forall t :: t in tasks ==> L.TaskInv(tasks[t]) && L.RecordInv(tasks[t]))
    && (forall t :: t in tasks ==> PlaceInv(tasks[t], loc[t], workers))
  }

  // ----- The clients' progress -----

  predicate Midway(pc: ClientPc) {
    pc.SetWg? || pc.Check? || pc.AddWg? || pc.Send? || pc.Sent?
  }

  predicate ClientInv(k: Client) {
    && k.i <= |k.tasks|
    && (Midway(k.pc) ==> k.i < |k.tasks| && k.tasks[k.i].Some?)
    && (k.pc.Wait? || k.pc == Return(true) ==> k.i == |k.tasks|)
  }

  /** The client has sent the task at position j. */
  predicate Handed(k: Client, j: nat) {
    j < k.i || (j == k.i && (k.pc.Sent? || k.pc.ReturnLate?))
  }

  /** The task at position j of client c, compared with how far the client is. */
  predicate SlotInv(c: ClientId, k: Client, j: nat, wg: Option<int>, unsent: bool, counted: bool) {
    if Handed(k, j) then !unsent && counted && wg == Some(c)
    else
      && unsent
      && (j > k.i || k.pc.Loop? || k.pc.SetWg? || k.pc.Check? || k.pc.AddWg? ==> !counted)
      && (j == k.i && k.pc.Send? ==> counted)
      && (counted || (j == k.i && (k.pc.Check? || k.pc.AddWg?)) ==> wg == Some(c))
  }

  ghost predicate ClientsInv(s: Pool) {
    && s.wg.Keys == s.clients.Keys
    && Slots(s)
    && (forall c :: c in s.clients ==> ClientInv(s.clients[c]))
    && (forall t :: t in s.tasks ==> OwnerInv(s, t))
    && s.added <= s.tasks.Keys
  }

  /** A task of a client's list is where the client's progress says; any other task is never added. */
  ghost predicate OwnerInv(s: Pool, t: TaskId)
    requires t in s.tasks
  {
    t in s.loc &&
    if Owned(s, t) then
      var (c, j) := s.cfg.slot[t];
      SlotInv(c, s.clients[c], j, s.tasks[t].wg, s.loc[t].Fresh?, t in s.added)
    else s.loc[t].Fresh? && t !in s.added
  }

  predicate Owned(s: Pool, t: TaskId) {
    t in s.cfg.slot &&
    var (c, j) := s.cfg.slot[t];
    c in s.clients && j < |s.clients[c].tasks| && s.clients[c].tasks[j] == Some(t)
  }

  // ----- The wait groups -----

  /** Tasks counted for client c whose completion signal is still to come. */
  function Outstanding(tasks: map<TaskId, T.Task>, added: set<TaskId>, c: ClientId): set<TaskId> {
    set t | t in added && t in tasks && tasks[t].wg == Some(c) && tasks[t].life.signals == 0
  }

  ghost predicate WgInv(wg: map<ClientId, int>, tasks: map<TaskId, T.Task>, added: set<TaskId>) {
    forall c :: c in wg ==> wg[c] == |Outstanding(tasks, added, c)|
  }

  // ----- All together -----

  ghost predicate Inv(s: Pool) {
    && s.cfg.concurrency > 0 && s.cfg.queueSize > 0
    && CtlInv(s.ctl, s.queue.closed, s.errs.closed)
    && SizeInv(s.ctl.runner, |s.workers|, s.cfg.concurrency)
    && WorkersInv(s.workers, s.errs.items, s.ctl.runner)
    && ErrsInv(s.errs.items, |s.workers|, s.ctl.runner)
    && QueueInv(s.queue.items, s.loc)
    && HoldInv(s.workers, s.loc)
    && TasksInv(s.tasks, s.loc, s.workers)
    && ClientsInv(s)
    && WgInv(s.wg, s.tasks, s.added)
  }

  lemma FreshTaskHasInv(t: T.Task)
    requires FreshTask(t)
    ensures L.TaskInv(t) && L.RecordInv(t) && Waiting(t)
  {
  }

  lemma InitHasTasksInv(s: Pool)
    requires Init(s)
    ensures TasksInv(s.tasks, s.loc, s.workers)
  {
    forall t | t in s.tasks
      ensures L.TaskInv(s.tasks[t]) && L.RecordInv(s.tasks[t]) && PlaceInv(s.tasks[t], s.loc[t], s.workers)
    {
      FreshTaskHasInv(s.tasks[t]);
    }
  }

  lemma InitHasClientsInv(s: Pool)
    requires Init(s)
    ensures ClientsInv(s) && WgInv(s.wg, s.tasks, s.added)
  {
    forall c | c in s.wg
      ensures s.wg[c] == |Outstanding(s.tasks, s.added, c)|
    {
      assert Outstanding(s.tasks, s.added, c) == {};
    }
    forall t | t in s.tasks
      ensures OwnerInv(s, t)
    {
      assert s.loc[t] == Fresh;
      if Owned(s, t) {
        var (c, j) := s.cfg.slot[t];
        assert c in s.clients && s.clients[c].i == 0 && s.clients[c].pc == Loop;
      }
    }
  }

  lemma InitHasInv(s: Pool)
    requires Init(s)
    ensures Inv(s)
  {
    InitHasTasksInv(s);
    InitHasClientsInv(s);
  }
}
