/**
The background worker pool of pkg/common/workerpool as a transition system:
`RunBG`, `Stop` and `shutdownUnsafe`, every worker's `run`, `AddTask` called
from the clients' `RunTasksGroupWG`, and the tasks of module Tasks.

`Next` gives the state after one step of one goroutine, or None when that step
cannot be taken: its guard is false, it blocks, or it ends the whole program
(a send on a closed channel outside any recover).
A task identifier stands for one life of a task object, from NewTask on.
*/
module PoolMachine {
  import opened Options
  import T = Tasks
  import L = TaskLife

  type TaskId = int
  type WorkerId = nat
  type ClientId = int

  datatype PoolState = PoolNew | BgRunning | ShuttingDown | TerminateTimeout | PoolShutdown

  datatype Mode = Light | Soft | Hard

  /** How shutdownUnsafe ended: all workers seen terminated, timeout, or a recovered panic. */
  datatype StopOutcome = Completed | TimedOut | Aborted

  /** The write lock of the pool and who holds it. */
  datatype Lock = Free | StartLock | StopLock | RunnerStopLock

  /** The goroutine inside RunBG. */
  datatype RunnerPc =
    | NotStarted
    | Spawning
    | Selecting
    | Restarting(w: WorkerId)
    | Locking           // parent context closed, waiting for the pool's lock
    | InShutdown
    | Returning | Ended

  /** Where to go on after a Task.Stop made by the shutdown. */
  datatype Resume = ResumeDrain | ResumeWorkers(todo: set<WorkerId>)

  /** The goroutine inside shutdownUnsafe, which holds the pool's lock. */
  datatype ShutPc =
    | Off
    | CloseQueue(mode: Mode)
    | DrainQueue(mode: Mode)
    | TaskCheck(mode: Mode, t: TaskId, resume: Resume)
    | TaskSend(mode: Mode, t: TaskId, resume: Resume)
    | TaskClose(mode: Mode, t: TaskId, resume: Resume)
    | PickWorker(mode: Mode, todo: set<WorkerId>)
    | TestIdle(mode: Mode, todo: set<WorkerId>, w: WorkerId)     // the state was neither NEW nor WORKING
    | TestStop(mode: Mode, todo: set<WorkerId>, w: WorkerId)     // the stop channel may be nil
    | WorkerSend(mode: Mode, todo: set<WorkerId>, w: WorkerId)
    | WorkerClose(mode: Mode, todo: set<WorkerId>, w: WorkerId)
    | WorkerTask(mode: Mode, todo: set<WorkerId>, w: WorkerId)   // taskInProcess may be nil
    | WorkerLoad(mode: Mode, todo: set<WorkerId>, w: WorkerId)   // it was not; it is read again for the call
    | Poll(pending: set<WorkerId>, waiting: bool)
    | CloseErrs(timedOut: bool)
    | DrainErrs(timedOut: bool)
    | Finishing(how: StopOutcome)
    | SignalRunner | CloseSignal | Unlocking

  datatype Control = Control(
    state: PoolState,
    lock: Lock,
    runner: RunnerPc,
    shut: ShutPc,
    outcome: Option<StopOutcome>,   // history
    stopCh: T.Chan,
    ctxLive: bool,
    parentLive: bool
  )

  datatype WorkerState =
    | WorkerNew | Working | Idle | TerminatingCtx | TerminatingStop | TerminatingQueue | Terminated | WorkerRecoverErr

  /** The `run` call that owns a worker's mutex. */
  datatype RunPc =
    | NotRunning
    | CheckRun | BadState | MakeStop
    | Top | Receive
    | Got(t: TaskId) | Entering(t: TaskId) | Inside(t: TaskId) | After(t: TaskId)
    | Metrics
    | Panicking | Reporting | Terminating
    | Releasing

  datatype Worker = Worker(
    state: WorkerState,
    pc: RunPc,
    spawned: nat,              // run calls that have not tried the lock
    failing: nat,              // run calls that found it taken and have not reported
    stop: Option<T.Chan>,
    task: Option<TaskId>       // taskInProcess
  )

  datatype ClientPc =
    | Loop
    | SetWg | Check | AddWg | Send
    | Sent                     // the task is in the queue, AddTask has not returned
    | Wait
    | Return(ok: bool)
    | ReturnLate               // AddTask panicked and failed after its task was sent

  /** A RunTasksGroupWG call over its own list of tasks, nil entries included. */
  datatype Client = Client(tasks: seq<Option<TaskId>>, i: nat, pc: ClientPc)

  /** History: where each task is. */
  datatype Loc = Fresh | Queued | Held(w: WorkerId) | Finished | Discarded | Lost

  /** The settings; `slot` names, for each task, the client and the list position it was created for. */
  datatype Config = Config(
    concurrency: nat, queueSize: nat, shutdownTimeout: nat, workerTimeout: int, totalTimeout: nat,
    slot: map<TaskId, (ClientId, nat)>)

  datatype Fifo<T> = Fifo(items: seq<T>, closed: bool)

  datatype Pool = Pool(
    cfg: Config,
    ctl: Control,
    queue: Fifo<TaskId>,
    errs: Fifo<WorkerId>,
    workers: seq<Worker>,
    clients: map<ClientId, Client>,
    wg: map<ClientId, int>,
    tasks: map<TaskId, T.Task>,
    loc: map<TaskId, Loc>,         // history
    added: set<TaskId>             // history: tasks counted with wg.Add
  )

  // ----- RunBG -----

  datatype RunnerLabel =
    | StartRun | SpawnWorker | Ready
    | RecvErr | RecvErrClosed | Restart
    | RecvStopSignal | ParentDone | LockShutdown | Cancel

  function NewWorker(): Worker {
    Worker(WorkerNew, NotRunning, 1, 0, None, None)
  }

  function RunnerNext(s: Pool, l: RunnerLabel): Option<Pool> {
    var c := s.ctl;
    match l
    case StartRun =>
      if c.runner.NotStarted? && c.lock.Free? && c.state.PoolNew? then
        Some(s.(ctl := c.(state := BgRunning, lock := StartLock, runner := Spawning)))
      else None
    case SpawnWorker =>
      if c.runner.Spawning? && |s.workers| < s.cfg.concurrency then
        Some(s.(workers := s.workers + [NewWorker()]))
      else None
    case Ready =>
      if c.runner.Spawning? && |s.workers| >= s.cfg.concurrency then
        Some(s.(ctl := c.(lock := Free, runner := Selecting)))
      else None
    case RecvErr =>
      if c.runner.Selecting? && s.errs.items != [] then
        Some(s.(ctl := c.(runner := Restarting(s.errs.items[0])), errs := s.errs.(items := s.errs.items[1..])))
      else None
    case RecvErrClosed =>
      if c.runner.Selecting? && s.errs.items == [] && s.errs.closed then
        Some(s.(ctl := c.(runner := Returning)))
      else None
    case Restart =>
      if c.runner.Restarting? && c.runner.w < |s.workers| then
        var w := c.runner.w;
        var k := s.workers[w];
        Some(s.(ctl := c.(runner := Selecting), workers := s.workers[w := k.(spawned := k.spawned + 1)]))
      else None
    case RecvStopSignal =>
      if c.runner.Selecting? && T.Receivable(c.stopCh) then
        Some(s.(ctl := c.(runner := Returning, stopCh := T.Take(c.stopCh))))
      else None
    case ParentDone =>
      if c.runner.Selecting? && !c.parentLive then Some(s.(ctl := c.(runner := Locking))) else None
    case LockShutdown =>
      if !c.runner.Locking? || !c.lock.Free? then None
      else if c.state.BgRunning? then
        Some(s.(ctl := c.(lock := RunnerStopLock, runner := InShutdown, state := ShuttingDown, shut := CloseQueue(Hard))))
      else Some(s.(ctl := c.(runner := Returning)))
    case Cancel =>
      if c.runner.Returning? then Some(s.(ctl := c.(runner := Ended, ctxLive := false))) else None
  }

  // ----- Stop and shutdownUnsafe -----

  datatype ShutLabel =
    | CallStop(mode: Mode)
    | StepQueue
    | StepTask
    | Choose(w: WorkerId) | ChosenAll
    | StepWorker
    | PollTimeout | PollWorker(w: WorkerId) | PollEnd
    | StepErrs
    | Finish
    | StepSignal

  function AllWorkers(s: Pool): set<WorkerId> {
    set w {:trigger s.workers[w]} | 0 <= w < |s.workers|
  }

  function Resumed(mode: Mode, resume: Resume): ShutPc {
    match resume
    case ResumeDrain => DrainQueue(mode)
    case ResumeWorkers(todo) => PickWorker(mode, todo)
  }

  function ShutNext(s: Pool, l: ShutLabel): Option<Pool> {
    var c := s.ctl;
    match l
    case CallStop(mode) =>
      if c.lock.Free? && c.state.BgRunning? then
        Some(s.(ctl := c.(lock := StopLock, state := ShuttingDown, shut := CloseQueue(mode))))
      else None
    case StepQueue => QueueNext(s)
    case StepTask => TaskNext(s)
    case Choose(w) => ChooseNext(s, w)
    case ChosenAll =>
      if c.shut.PickWorker? && c.shut.todo == {} then Some(s.(ctl := c.(shut := Poll(AllWorkers(s), false))))
      else None
    case StepWorker => WorkerStopNext(s)
    case PollTimeout =>
      if c.shut.Poll? && c.shut.pending == AllWorkers(s) && !c.shut.waiting && s.cfg.shutdownTimeout != 0 then
        Some(s.(ctl := c.(state := TerminateTimeout, shut := CloseErrs(true))))
      else None
    case PollWorker(w) =>
      if !c.shut.Poll? || w !in c.shut.pending || w >= |s.workers| then None
      else
        var waiting := c.shut.waiting || !s.workers[w].state.Terminated?;
        Some(s.(ctl := c.(shut := Poll(c.shut.pending - {w}, waiting))))
    case PollEnd => PollEndNext(s)
    case StepErrs => ErrsNext(s)
    case Finish => FinishNext(s)
    case StepSignal => SignalNext(s)
  }

  /** Worker.Stop's state test reads the state anew for each value; the last one is TestIdle's. */
  function ChooseNext(s: Pool, w: WorkerId): Option<Pool> {
    var c := s.ctl;
    if !c.shut.PickWorker? || w !in c.shut.todo || w >= |s.workers| then None
    else
      var state := s.workers[w].state;
      var rest := c.shut.todo - {w};
      var mode := c.shut.mode;
      var next := if state.WorkerNew? || state.Working? then TestStop(mode, rest, w) else TestIdle(mode, rest, w);
      Some(s.(ctl := c.(shut := next)))
  }

  /** The end of one polling pass. */
  function PollEndNext(s: Pool): Option<Pool> {
    var c := s.ctl;
    if !c.shut.Poll? || c.shut.pending != {} then None
    else if c.shut.waiting then Some(s.(ctl := c.(shut := Poll(AllWorkers(s), false))))
    else Some(s.(ctl := c.(shut := CloseErrs(false))))
  }

  /** Close workerErrCh, then read what is left in it. */
  function ErrsNext(s: Pool): Option<Pool> {
    var c := s.ctl;
    if c.shut.CloseErrs? then
      if s.errs.closed then Some(s.(ctl := c.(shut := Finishing(Aborted))))
      else Some(s.(ctl := c.(shut := DrainErrs(c.shut.timedOut)), errs := s.errs.(closed := true)))
    else if c.shut.DrainErrs? then
      if s.errs.items != [] then Some(s.(errs := s.errs.(items := s.errs.items[1..])))
      else Some(s.(ctl := c.(shut := Finishing(if c.shut.timedOut then TimedOut else Completed))))
    else None
  }

  /** The deferred end of shutdownUnsafe; RunBG then unlocks and returns, Stop goes on. */
  function FinishNext(s: Pool): Option<Pool> {
    var c := s.ctl;
    if !c.shut.Finishing? then None
    else
      var ended := c.(state := PoolShutdown, outcome := Some(c.shut.how));
      if c.lock.StopLock? then Some(s.(ctl := ended.(shut := SignalRunner)))
      else Some(s.(ctl := ended.(shut := Off, lock := Free, runner := Returning)))
  }

  /** The end of Stop: send on the pool's stop channel, close it, unlock. */
  function SignalNext(s: Pool): Option<Pool> {
    var c := s.ctl;
    if c.shut.SignalRunner? && c.stopCh == T.OPEN_EMPTY then
      Some(s.(ctl := c.(stopCh := T.Chan(1, false), shut := CloseSignal)))
    else if c.shut.CloseSignal? then
      Some(s.(ctl := c.(stopCh := c.stopCh.(closed := true), shut := Unlocking)))
    else if c.shut.Unlocking? then Some(s.(ctl := c.(shut := Off, lock := Free)))
    else None
  }

  /** HARD also stops the worker's current task. */
  function AfterSignal(mode: Mode, rest: set<WorkerId>, w: WorkerId): ShutPc {
    if mode.Hard? then WorkerTask(mode, rest, w) else PickWorker(mode, rest)
  }

  /** Close the task queue; SOFT and HARD then take the waiting tasks out and stop them. */
  function QueueNext(s: Pool): Option<Pool> {
    var c := s.ctl;
    if c.shut.CloseQueue? then
      if s.queue.closed then Some(s.(ctl := c.(shut := Finishing(Aborted))))
      else
        var next := if c.shut.mode.Light? then PickWorker(c.shut.mode, AllWorkers(s)) else DrainQueue(c.shut.mode);
        Some(s.(ctl := c.(shut := next), queue := s.queue.(closed := true)))
    else if c.shut.DrainQueue? then
      if s.queue.items == [] then Some(s.(ctl := c.(shut := PickWorker(c.shut.mode, AllWorkers(s)))))
      else
        var t := s.queue.items[0];
        Some(s.(ctl := c.(shut := TaskCheck(c.shut.mode, t, ResumeDrain)),
                queue := s.queue.(items := s.queue.items[1..]), loc := s.loc[t := Discarded]))
    else None
  }

  /** Task.Stop called by the shutdown; a panic is recovered and aborts the shutdown. */
  function TaskNext(s: Pool): Option<Pool> {
    var c := s.ctl;
    if c.shut.TaskCheck? && c.shut.t in s.tasks then
      var t := s.tasks[c.shut.t];
      if T.Stoppable(t.state) then
        Some(s.(ctl := c.(shut := TaskSend(c.shut.mode, c.shut.t, c.shut.resume)),
                tasks := s.tasks[c.shut.t := t.(stop := T.BeginStop(t.stop))]))
      else Some(s.(ctl := c.(shut := Resumed(c.shut.mode, c.shut.resume))))
    else if c.shut.TaskSend? && c.shut.t in s.tasks then
      var t := s.tasks[c.shut.t];
      var next := T.OutsideStep(t, T.StopSend);
      if next.None? then None
      else
        var shut := if t.stop.ch.closed then Finishing(Aborted) else TaskClose(c.shut.mode, c.shut.t, c.shut.resume);
        Some(s.(ctl := c.(shut := shut), tasks := s.tasks[c.shut.t := next.value]))
    else if c.shut.TaskClose? && c.shut.t in s.tasks then
      var t := s.tasks[c.shut.t];
      var next := T.OutsideStep(t, T.StopClose);
      if next.None? then None
      else
        var shut := if t.stop.ch.closed then Finishing(Aborted) else Resumed(c.shut.mode, c.shut.resume);
        Some(s.(ctl := c.(shut := shut), tasks := s.tasks[c.shut.t := next.value]))
    else None
  }

  /** The rest of Worker.Stop: send on and close whatever channel the worker has then. */
  function WorkerStopNext(s: Pool): Option<Pool> {
    if s.ctl.shut.TestIdle? || s.ctl.shut.TestStop? then WorkerTestNext(s)
    else if s.ctl.shut.WorkerSend? then WorkerSendNext(s)
    else if s.ctl.shut.WorkerClose? then WorkerCloseNext(s)
    else if s.ctl.shut.WorkerTask? || s.ctl.shut.WorkerLoad? then WorkerTaskNext(s)
    else None
  }

  function WorkerTestNext(s: Pool): Option<Pool>
    requires s.ctl.shut.TestIdle? || s.ctl.shut.TestStop?
  {
    var c := s.ctl;
    if c.shut.w >= |s.workers| then None
    else
      var (mode, rest, w) := (c.shut.mode, c.shut.todo, c.shut.w);
      var k := s.workers[w];
      var next :=
        if c.shut.TestIdle? then if k.state.Idle? then TestStop(mode, rest, w) else PickWorker(mode, rest)
        else if k.stop.Some? then WorkerSend(mode, rest, w)
        else AfterSignal(mode, rest, w);
      Some(s.(ctl := c.(shut := next)))
  }

  function WorkerSendNext(s: Pool): Option<Pool>
    requires s.ctl.shut.WorkerSend?
  {
    var c := s.ctl;
    if c.shut.w >= |s.workers| || s.workers[c.shut.w].stop.None? then None
    else
      var k := s.workers[c.shut.w];
      if k.stop.value.closed then Some(s.(ctl := c.(shut := Finishing(Aborted))))
      else if k.stop.value.buffered > 0 then None
      else Some(s.(ctl := c.(shut := WorkerClose(c.shut.mode, c.shut.todo, c.shut.w)),
                   workers := s.workers[c.shut.w := k.(stop := Some(T.Chan(1, false)))]))
  }

  function WorkerCloseNext(s: Pool): Option<Pool>
    requires s.ctl.shut.WorkerClose?
  {
    var c := s.ctl;
    if c.shut.w >= |s.workers| || s.workers[c.shut.w].stop.None? then None
    else
      var k := s.workers[c.shut.w];
      if k.stop.value.closed then Some(s.(ctl := c.(shut := Finishing(Aborted))))
      else Some(s.(ctl := c.(shut := AfterSignal(c.shut.mode, c.shut.todo, c.shut.w)),
                   workers := s.workers[c.shut.w := k.(stop := Some(k.stop.value.(closed := true)))]))
  }

  /** Two reads of the worker's current task; a call on nil panics. */
  function WorkerTaskNext(s: Pool): Option<Pool>
    requires s.ctl.shut.WorkerTask? || s.ctl.shut.WorkerLoad?
  {
    var c := s.ctl;
    if c.shut.w >= |s.workers| then None
    else
      var (mode, rest, task) := (c.shut.mode, c.shut.todo, s.workers[c.shut.w].task);
      var next :=
        if c.shut.WorkerTask? then if task.Some? then WorkerLoad(mode, rest, c.shut.w) else PickWorker(mode, rest)
        else if task.Some? then TaskCheck(mode, task.value, ResumeWorkers(rest))
        else Finishing(Aborted);
      Some(s.(ctl := c.(shut := next)))
  }

  // ----- Worker.run -----

  datatype WorkerLabel =
    | TryRun | ReportTaken | TestState | ReportState | CreateStop
    | SeeStop | SeeCtx | GoReceive
    | TakeTask | SeeClosed
    | LosePanic | SetWorking
    | EnterTask | InTask(p: T.ProcessLabel) | LeaveTask
    | ClearTask | MetricsDone | MetricsPanic
    | MarkRecover | ReportPanic | MarkTerminated | Release

  function WorkerNext(s: Pool, w: WorkerId, l: WorkerLabel): Option<Pool> {
    if w >= |s.workers| then None
    else if l.ReportTaken? || l.ReportState? || l.ReportPanic? then ReportNext(s, w, l)
    else if l.TakeTask? || l.LosePanic? || l.ClearTask? then MoveNext(s, w, l)
    else if l.EnterTask? || l.InTask? || l.LeaveTask? then ProcessNext(s, w, l)
    else match LocalNext(s.ctl.ctxLive, s.queue, s.workers[w], l)
      case None => None
      case Some(k) => Some(s.(workers := s.workers[w := k]))
  }

  /** Steps that change the worker only. */
  function LocalNext(ctxLive: bool, queue: Fifo<TaskId>, k: Worker, l: WorkerLabel): Option<Worker> {
    match l
    case TryRun =>
      if k.spawned == 0 then None
      else if k.pc.NotRunning? then Some(k.(spawned := k.spawned - 1, pc := CheckRun))
      else Some(k.(spawned := k.spawned - 1, failing := k.failing + 1))
    case TestState =>
      if !k.pc.CheckRun? then None
      else if k.state.WorkerNew? || k.state.WorkerRecoverErr? then Some(k.(state := Idle, pc := MakeStop))
      else Some(k.(pc := BadState))
    case CreateStop => if k.pc.MakeStop? then Some(k.(stop := Some(T.OPEN_EMPTY), pc := Top)) else None
    case SeeStop =>
      if !(k.pc.Top? || k.pc.Receive?) || k.stop.None? || !T.Receivable(k.stop.value) then None
      else if k.stop.value.buffered > 0 then
        Some(k.(stop := Some(T.Take(k.stop.value)), state := TerminatingStop, pc := Terminating))
      else Some(k.(pc := Terminating))
    case SeeCtx => if k.pc.Top? && !ctxLive then Some(k.(state := TerminatingCtx, pc := Terminating)) else None
    case GoReceive =>
      if k.pc.Top? && ctxLive && (k.stop.Some? ==> !T.Receivable(k.stop.value)) then Some(k.(pc := Receive)) else None
    case SeeClosed =>
      if k.pc.Receive? && queue.items == [] && queue.closed then
        Some(k.(state := TerminatingQueue, pc := Terminating))
      else None
    case SetWorking =>
      if k.pc.Got? then Some(k.(state := Working, task := Some(k.pc.t), pc := Entering(k.pc.t))) else None
    case MetricsDone => if k.pc.Metrics? then Some(k.(pc := Top)) else None
    case MetricsPanic => if k.pc.Metrics? then Some(k.(pc := Panicking)) else None
    case MarkRecover => if k.pc.Panicking? then Some(k.(state := WorkerRecoverErr, pc := Reporting)) else None
    case MarkTerminated => if k.pc.Terminating? then Some(k.(state := Terminated, pc := Releasing)) else None
    case Release => if k.pc.Releasing? then Some(k.(pc := NotRunning)) else None
    case _ => None
  }

  /** Sends on workerErrCh: blocked when it is full, the end of the program when it is closed. */
  function ReportNext(s: Pool, w: WorkerId, l: WorkerLabel): Option<Pool>
    requires w < |s.workers|
  {
    var k := s.workers[w];
    if s.errs.closed || |s.errs.items| >= s.cfg.concurrency then None
    else
      var errs := s.errs.(items := s.errs.items + [w]);
      if l.ReportTaken? && k.failing > 0 then
        Some(s.(errs := errs, workers := s.workers[w := k.(failing := k.failing - 1)]))
      else if (l.ReportState? && k.pc.BadState?) || (l.ReportPanic? && k.pc.Reporting?) then
        Some(s.(errs := errs, workers := s.workers[w := k.(pc := Releasing)]))
      else None
  }

  /** Steps that move a task: out of the queue, lost to a panic before process, finished. */
  function MoveNext(s: Pool, w: WorkerId, l: WorkerLabel): Option<Pool>
    requires w < |s.workers|
  {
    var k := s.workers[w];
    if l.TakeTask? && k.pc.Receive? && s.queue.items != [] then
      var t := s.queue.items[0];
      Some(s.(queue := s.queue.(items := s.queue.items[1..]), workers := s.workers[w := k.(pc := Got(t))],
              loc := s.loc[t := Held(w)]))
    else if l.LosePanic? && k.pc.Got? then
      Some(s.(workers := s.workers[w := k.(pc := Panicking)], loc := s.loc[k.pc.t := Lost]))
    else if l.ClearTask? && k.pc.After? then
      Some(s.(workers := s.workers[w := k.(task := None, state := Idle, pc := Metrics)],
              loc := s.loc[k.pc.t := Finished]))
    else None
  }

  /** Steps of task.process, called by the worker. */
  function ProcessNext(s: Pool, w: WorkerId, l: WorkerLabel): Option<Pool>
    requires w < |s.workers|
  {
    var k := s.workers[w];
    if l.EnterTask? && k.pc.Entering? && k.pc.t in s.tasks then
      var t := s.tasks[k.pc.t];
      if t.pc.Unlocked? then
        Some(s.(workers := s.workers[w := k.(pc := Inside(k.pc.t))],
                tasks := s.tasks[k.pc.t := t.(pc := T.Locked)]))
      else
        Some(s.(workers := s.workers[w := k.(pc := After(k.pc.t))],
                tasks := s.tasks[k.pc.t := t.(err := T.LockedErr)]))
    else if l.LeaveTask? && k.pc.Inside? && k.pc.t in s.tasks && s.tasks[k.pc.t].pc.Unlocking? then
      Some(s.(workers := s.workers[w := k.(pc := After(k.pc.t))],
              tasks := s.tasks[k.pc.t := s.tasks[k.pc.t].(pc := T.Unlocked)]))
    else if l.InTask? && k.pc.Inside? && k.pc.t in s.tasks then
      var t := s.tasks[k.pc.t];
      var next := T.ProcessStep(t, l.p);
      if next.None? || (l.p.ArmTimer? && l.p.workerTimeout != s.cfg.workerTimeout) then None
      else if l.p.WgDone? && t.wg.Some? then
        if t.wg.value !in s.wg || l.p.ok != (s.wg[t.wg.value] > 0) then None
        else
          var wg := if l.p.ok then s.wg[t.wg.value := s.wg[t.wg.value] - 1] else s.wg;
          Some(s.(tasks := s.tasks[k.pc.t := next.value], wg := wg))
      else Some(s.(tasks := s.tasks[k.pc.t := next.value]))
    else None
  }

  // ----- RunTasksGroupWG and AddTask -----

  datatype ClientLabel = Advance | GroupTimeout | AssignWg | TestPool | CountWg | SendTask | AddReturns | AddPanics | SeeZero

  function ClientNext(s: Pool, c: ClientId, l: ClientLabel): Option<Pool> {
    if c !in s.clients || c !in s.wg then None
    else
      var k := s.clients[c];
      match l
      case Advance =>
        if !k.pc.Loop? then None
        else if k.i >= |k.tasks| then Some(s.(clients := s.clients[c := k.(pc := Wait)]))
        else if k.tasks[k.i].None? then Some(s.(clients := s.clients[c := k.(i := k.i + 1)]))
        else Some(s.(clients := s.clients[c := k.(pc := SetWg)]))
      case GroupTimeout =>
        if k.pc.Loop? && k.i < |k.tasks| && k.tasks[k.i].Some? && s.cfg.totalTimeout > 0 then
          Some(s.(clients := s.clients[c := k.(pc := Return(false))]))
        else None
      case SeeZero =>
        if k.pc.Wait? && s.wg[c] == 0 then Some(s.(clients := s.clients[c := k.(pc := Return(true))])) else None
      case _ =>
        if k.i >= |k.tasks| || k.tasks[k.i].None? || k.tasks[k.i].value !in s.tasks then None
        else AddNext(s, c, k, k.tasks[k.i].value, l)
  }

  /** The steps of one AddTask, with SetWgUnsafe before it. */
  function AddNext(s: Pool, c: ClientId, k: Client, t: TaskId, l: ClientLabel): Option<Pool>
    requires c in s.wg && t in s.tasks
  {
    match l
    case AssignWg =>
      if !k.pc.SetWg? then None
      else Some(s.(clients := s.clients[c := k.(pc := Check)], tasks := s.tasks[t := s.tasks[t].(wg := Some(c))]))
    case TestPool =>    // under the read lock
      if !k.pc.Check? || !s.ctl.lock.Free? then None
      else if s.ctl.state.BgRunning? then Some(s.(clients := s.clients[c := k.(pc := AddWg)]))
      else Some(s.(clients := s.clients[c := k.(pc := Return(false))]))
    case CountWg =>
      if !k.pc.AddWg? then None
      else Some(s.(clients := s.clients[c := k.(pc := Send)], wg := s.wg[c := s.wg[c] + 1], added := s.added + {t}))
    case SendTask =>    // a panic of the send on a closed queue is recovered
      if !k.pc.Send? then None
      else if s.queue.closed then Some(s.(clients := s.clients[c := k.(pc := Return(false))]))
      else if |s.queue.items| >= s.cfg.queueSize then None
      else Some(s.(clients := s.clients[c := k.(pc := Sent)],
                   queue := s.queue.(items := s.queue.items + [t]), loc := s.loc[t := Queued]))
    case AddReturns =>
      if !k.pc.Sent? then None else Some(s.(clients := s.clients[c := k.(pc := Loop, i := k.i + 1)]))
    case AddPanics =>   // in the metrics calls before wg.Add and after the send; recovered
      if k.pc.AddWg? then Some(s.(clients := s.clients[c := k.(pc := Return(false))]))
      else if k.pc.Sent? then Some(s.(clients := s.clients[c := k.(pc := ReturnLate)]))
      else None
    case _ => None
  }

  // ----- The whole system -----

  datatype Label =
    | Runner(rl: RunnerLabel)
    | Shut(sl: ShutLabel)
    | OfWorker(w: WorkerId, wl: WorkerLabel)
    | OfClient(c: ClientId, cl: ClientLabel)
    | OfTask(t: TaskId, o: T.OutsideLabel)     // handler goroutine, timer, Stop called from outside
    | ParentClose

  function Next(s: Pool, l: Label): Option<Pool> {
    match l
    case Runner(rl) => RunnerNext(s, rl)
    case Shut(sl) => ShutNext(s, sl)
    case OfWorker(w, wl) => WorkerNext(s, w, wl)
    case OfClient(c, cl) => ClientNext(s, c, cl)
    case OfTask(t, o) =>
      if t !in s.tasks || T.OutsideStep(s.tasks[t], o).None? || OwnStop(s, t, o) then None
      else Some(s.(tasks := s.tasks[t := T.OutsideStep(s.tasks[t], o).value]))
    case ParentClose => Some(s.(ctl := s.ctl.(parentLive := false)))
  }

  /** The only Stop call on t at this point is the shutdown's own; TaskNext takes its steps. */
  predicate OwnStop(s: Pool, t: TaskId, o: T.OutsideLabel)
    requires t in s.tasks
  {
    var shut := s.ctl.shut;
    || (o.StopSend? && shut.TaskSend? && shut.t == t && s.tasks[t].stop.sending == 1)
    || (o.StopClose? && shut.TaskClose? && shut.t == t && s.tasks[t].stop.closing == 1)
  }

  function Run(s: Pool, labels: seq<Label>): Option<Pool>
    decreases |labels|
  {
    if labels == [] then Some(s)
    else match Next(s, labels[0])
      case None => None
      case Some(next) => Run(next, labels[1..])
  }

  /** A pool fresh from NewPool and its clients, whose tasks are fresh from NewTask and pairwise distinct. */
  ghost predicate Init(s: Pool) {
    && s.cfg.concurrency > 0 && s.cfg.queueSize > 0
    && s.ctl == Control(PoolNew, Free, NotStarted, Off, None, T.OPEN_EMPTY, true, s.ctl.parentLive)
    && s.queue == Fifo([], false) && s.errs == Fifo([], false) && s.workers == [] && s.added == {}
    && s.loc.Keys == s.tasks.Keys && s.wg.Keys == s.clients.Keys
    && (forall t :: t in s.tasks ==> FreshTask(s.tasks[t]) && s.loc[t] == Fresh)
    && (forall c :: c in s.clients ==> s.clients[c].i == 0 && s.clients[c].pc == Loop && s.wg[c] == 0)
    && Slots(s)
  }

  /** The clients' lists hold pairwise distinct tasks. */
  ghost predicate Slots(s: Pool) {
    forall c, j: nat :: c in s.clients && j < |s.clients[c].tasks| && s.clients[c].tasks[j].Some? ==>
      var t := s.clients[c].tasks[j].value;
      t in s.tasks && t in s.cfg.slot && s.cfg.slot[t] == (c, j)
  }

  /** As NewTask returns it: READY, nothing done in this life, nothing left from
      an earlier one but Stop calls. */
  ghost predicate FreshTask(t: T.Task) {
    && t.state.Ready? && t.pc.Unlocked? && t.holder.InUse? && !t.putting && t.err == T.NoErr && t.responses == []
    && t.run == T.RunSide(T.OPEN_EMPTY, T.Stopped, true, T.NoHandler)
    && L.StopInv(t.stop)
    && t.life == T.Life(t.life.number, T.Pending, 0, 0, 0, 0)
  }
}
