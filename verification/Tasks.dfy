/**
One task object of pkg/common/workerpool: the fields of `Task`, the steps of
`process`, of the goroutine that runs a long handler, of the timer, of `Stop`,
and of the recycling pool (`getTask`, `putTask`, `NewTask`).

A step is one channel operation, one lock operation or one assignment that
another goroutine can see.  `Step` gives the state after a step, or None when
the step cannot be taken (the guard is false or the operation blocks).
*/
module Tasks {
  import opened Options

  // TERMINATED_CTX_CLOSED is declared in the source but never assigned.
  datatype TaskState =
    | New | PoolGet | PoolPut | Ready | InProcess | DoneSuccess | RecoverErr
    | TerminatedStop | TerminatedTimeout

  /** A channel of capacity one; only the number of waiting messages matters. */
  datatype Chan = Chan(buffered: nat, closed: bool)

  const OPEN_EMPTY := Chan(0, false)

  datatype Timer = Stopped | Armed | Fired

  /** The goroutine of a long handler: computing, or about to send on localDoneCh. */
  datatype Handler = NoHandler | HandlerRunning | HandlerSending

  datatype Err =
    | NoErr | HandlerErr(code: int) | PanicErr | StopErr | TimeoutErr | LockedErr | StateErr

  /** What the handler of this life did so far. */
  datatype Outcome = Pending | Returned(err: Err, responses: seq<int>) | Panicked

  /** Where the `process` call that owns the task's mutex stands. */
  datatype Pc =
    | Unlocked
    | Locked                       // TryLock succeeded, state not checked yet
    | Begin                        // IN_PROCESS set, both defers registered
    | ShortRun | ShortDone
    | Arm | Select | StopTimer | DrainTimer | LongDone
    | CancelCtx | CloseLocalDone
    | Signal(panicking: bool)      // deferred: doneCh
    | SignalWg(panicking: bool)    // deferred: wait group
    | Recover(panicking: bool)     // deferred: recover
    | Unlocking                    // deferred: mx.Unlock

  /** Who may touch the object: the recycling pool, NewTask, or the client NewTask returned it to. */
  datatype Holder = InPool | InNewTask | InUse

  /** The stop channel, with the Stop calls that passed their state test: not sent yet, not closed yet, all. */
  datatype StopSide = StopSide(ch: Chan, sending: nat, closing: nat, calls: nat)

  /** What only a long run uses. */
  datatype RunSide = RunSide(localDone: Chan, timer: Timer, ctxLive: bool, handler: Handler)

  /** History of one life, from NewTask to NewTask: handler starts, sends on doneCh, completion
      signals that ran to their end, completion signals that panicked. */
  datatype Life = Life(number: nat, outcome: Outcome, starts: nat, doneSends: nat, signals: nat, failed: nat)

  datatype Task = Task(
    state: TaskState,
    pc: Pc,
    timeout: int,
    hasDoneCh: bool,
    wg: Option<int>,
    stop: StopSide,
    run: RunSide,
    err: Err,
    responses: seq<int>,
    holder: Holder,
    putting: bool,        // a putTask call has passed its state test
    life: Life
  )

  /** Steps of the `process` call that owns the mutex, between the state check and the recover. */
  datatype ProcessLabel =
    | Check | Start
    | ShortReturn(code: Option<int>, values: seq<int>) | ShortPanic | ShortFinish
    | ArmTimer(workerTimeout: int) | RecvDone | TimerStop | TimerDrain | LongFinish
    | RecvStop | RecvTimeout | CancelContext | CloseDone
    | SendDone(ok: bool) | WgDone(ok: bool) | Recovered

  /** Steps of the handler goroutine, of the timer and of Stop callers. */
  datatype OutsideLabel =
    | HandlerReturn(code: Option<int>, values: seq<int>) | HandlerPanic | HandlerSend | TimerFire
    | StopCheck | StopSend | StopClose

  /** Steps of putTask, getTask and NewTask. */
  datatype RecycleLabel =
    | PutCheck | PutLock | Get | NewTask(timeout: int, hasDoneCh: bool, wg: Option<int>)

  datatype Label =
    | Enter | EnterFails | Unlock
    | Process(p: ProcessLabel)
    | Outside(o: OutsideLabel)
    | Recycle(r: RecycleLabel)

  /** A fresh object as the recycling pool's New function builds it. */
  function NewObject(): Task {
    Task(New, Unlocked, 0, false, None, StopSide(OPEN_EMPTY, 0, 0, 0),
         RunSide(OPEN_EMPTY, Stopped, true, NoHandler), NoErr, [], InPool, false, Life(0, Pending, 0, 0, 0, 0))
  }

  function ErrOf(code: Option<int>): Err {
    match code
    case None => NoErr
    case Some(c) => HandlerErr(c)
  }

  /** The limit `process` waits for: the task's own timeout first, then the worker's, else none (0). */
  function EffectiveTimeout(timeout: int, workerTimeout: int): int {
    if timeout > 0 then timeout else if workerTimeout > 0 then workerTimeout else 0
  }

  predicate IsShort(t: Task) {
    t.timeout < 0
  }

  predicate Stoppable(state: TaskState) {
    state.New? || state.InProcess? || state.DoneSuccess?
  }

  predicate Puttable(state: TaskState) {
    state.New? || state.DoneSuccess? || state.PoolGet?
  }

  function Step(t: Task, l: Label): Option<Task> {
    match l
    case Enter => if t.pc == Unlocked then Some(t.(pc := Locked)) else None
    case EnterFails => if t.pc != Unlocked then Some(t.(err := LockedErr)) else None
    case Unlock => if t.pc != Unlocking then None else Some(t.(pc := Unlocked))
    case Process(p) => ProcessStep(t, p)
    case Outside(o) => OutsideStep(t, o)
    case Recycle(r) => RecycleStep(t, r)
  }

  function ProcessStep(t: Task, p: ProcessLabel): Option<Task> {
    match p
    case Check =>
      if t.pc != Locked then None
      else if t.state == Ready then Some(t.(state := InProcess, pc := Begin))
      else Some(t.(err := StateErr, pc := Unlocking))
    case Start =>
      if t.pc != Begin then None
      else
        var started := t.life.(starts := t.life.starts + 1);
        if IsShort(t) then Some(t.(pc := ShortRun, life := started))
        else Some(t.(pc := Arm, life := started, run := t.run.(handler := HandlerRunning)))
    case ShortReturn(c, v) =>
      if t.pc != ShortRun then None
      else Some(t.(pc := ShortDone, err := ErrOf(c), responses := v,
                   life := t.life.(outcome := Returned(ErrOf(c), v))))
    case ShortPanic =>
      if t.pc != ShortRun then None else Some(t.(pc := Signal(true), life := t.life.(outcome := Panicked)))
    case ShortFinish =>
      if t.pc != ShortDone then None else Some(t.(pc := Signal(false), state := DoneSuccess))
    case ArmTimer(wt) =>
      if t.pc != Arm then None
      else if EffectiveTimeout(t.timeout, wt) > 0 then Some(t.(pc := Select, run := t.run.(timer := Armed)))
      else Some(t.(pc := Select))
    case RecvDone =>
      if t.pc != Select || !Receivable(t.run.localDone) then None
      else Some(t.(pc := StopTimer, run := t.run.(localDone := Take(t.run.localDone))))
    case TimerStop =>
      if t.pc != StopTimer then None
      else if t.run.timer == Armed then Some(t.(pc := LongDone, run := t.run.(timer := Stopped)))
      else Some(t.(pc := DrainTimer))
    case TimerDrain =>
      if t.pc != DrainTimer || t.run.timer != Fired then None
      else Some(t.(pc := LongDone, run := t.run.(timer := Stopped)))
    case LongFinish =>
      if t.pc != LongDone then None else Some(t.(pc := Signal(false), state := DoneSuccess))
    case RecvStop =>
      if t.pc != Select || !Receivable(t.stop.ch) then None
      else if t.stop.ch.buffered > 0 then
        Some(t.(pc := CancelCtx, stop := t.stop.(ch := Take(t.stop.ch)), err := StopErr, state := TerminatedStop))
      else Some(t.(pc := CancelCtx))
    case RecvTimeout =>
      if t.pc != Select || t.run.timer != Fired then None
      else Some(t.(pc := CancelCtx, run := t.run.(timer := Stopped), err := TimeoutErr, state := TerminatedTimeout))
    case CancelContext =>
      if t.pc != CancelCtx then None else Some(t.(pc := CloseLocalDone, run := t.run.(ctxLive := false)))
    case CloseDone =>
      if t.pc != CloseLocalDone then None
      else if t.run.localDone.closed then Some(t.(pc := Signal(true)))
      else Some(t.(pc := Signal(false), run := t.run.(localDone := t.run.localDone.(closed := true))))
    case SendDone(ok) =>
      if !t.pc.Signal? || (!t.hasDoneCh && !ok) then None
      else if !t.hasDoneCh then Some(t.(pc := SignalWg(t.pc.panicking)))
      else if ok then Some(t.(pc := SignalWg(t.pc.panicking), life := t.life.(doneSends := t.life.doneSends + 1)))
      else Some(t.(pc := Recover(true), life := t.life.(failed := t.life.failed + 1)))
    case WgDone(ok) =>
      if !t.pc.SignalWg? || (t.wg.None? && !ok) then None
      else if ok then Some(t.(pc := Recover(t.pc.panicking), life := t.life.(signals := t.life.signals + 1)))
      else Some(t.(pc := Recover(true), life := t.life.(failed := t.life.failed + 1)))
    case Recovered =>
      if !t.pc.Recover? then None
      else if t.pc.panicking then Some(t.(pc := Unlocking, err := PanicErr, state := RecoverErr))
      else Some(t.(pc := Unlocking))
  }

  function OutsideStep(t: Task, o: OutsideLabel): Option<Task> {
    match o
    case HandlerReturn(c, v) =>
      if t.run.handler != HandlerRunning then None
      else Some(t.(run := t.run.(handler := HandlerSending), err := ErrOf(c), responses := v,
                   life := t.life.(outcome := Returned(ErrOf(c), v))))
    case HandlerPanic =>
      if t.run.handler != HandlerRunning then None
      else Some(t.(run := t.run.(handler := HandlerSending), err := PanicErr,
                   life := t.life.(outcome := Panicked)))
    // On a closed channel the send panics outside any recover and the program ends: no next state.
    case HandlerSend =>
      if t.run.handler != HandlerSending || t.run.localDone != OPEN_EMPTY then None
      else Some(t.(run := t.run.(handler := NoHandler, localDone := Chan(1, false))))
    case TimerFire => if t.run.timer != Armed then None else Some(t.(run := t.run.(timer := Fired)))
    case StopCheck => if Stoppable(t.state) then Some(t.(stop := BeginStop(t.stop))) else Some(t)
    case StopSend =>
      if t.stop.sending == 0 || (!t.stop.ch.closed && t.stop.ch.buffered > 0) then None
      else Some(t.(stop := SendStop(t.stop)))
    case StopClose => if t.stop.closing == 0 then None else Some(t.(stop := CloseStop(t.stop)))
  }

  function BeginStop(s: StopSide): StopSide {
    s.(sending := s.sending + 1, calls := s.calls + 1)
  }

  /** Stop's send; on a closed channel it panics and the caller does not go on to close. */
  function SendStop(s: StopSide): StopSide
    requires s.sending > 0
  {
    if s.ch.closed then s.(sending := s.sending - 1)
    else s.(sending := s.sending - 1, closing := s.closing + 1, ch := Chan(1, false))
  }

  function CloseStop(s: StopSide): StopSide
    requires s.closing > 0
  {
    s.(closing := s.closing - 1, ch := s.ch.(closed := true))
  }

  function RecycleStep(t: Task, r: RecycleLabel): Option<Task> {
    match r
    case PutCheck =>
      if t.holder != InUse || t.putting || !Puttable(t.state) then None
      else Some(t.(putting := true, responses := []))
    case PutLock =>
      if !t.putting || t.pc != Unlocked then None
      else Some(t.(putting := false, state := PoolPut, holder := InPool))
    case Get =>
      if t.holder != InPool then None
      else Some(t.(holder := InNewTask, state := if t.state == New then New else PoolGet))
    case NewTask(to, d, g) =>
      if t.holder != InNewTask then None
      else Some(t.(holder := InUse, state := Ready, timeout := to, hasDoneCh := d, wg := g, err := NoErr,
                   responses := [], life := Life(t.life.number + 1, Pending, 0, 0, 0, 0)))
  }

  predicate Receivable(c: Chan) {
    c.buffered > 0 || c.closed
  }

  /** A receive: takes the waiting message if there is one (a closed empty channel yields its zero value). */
  function Take(c: Chan): Chan {
    if c.buffered > 0 then c.(buffered := c.buffered - 1) else c
  }

  /** The state after all labels, or None when one of them cannot be taken. */
  function Run(t: Task, labels: seq<Label>): Option<Task>
    decreases |labels|
  {
    if labels == [] then Some(t)
    else match Step(t, labels[0])
      case None => None
      case Some(next) => Run(next, labels[1..])
  }
}
