/**
What every step of a task object keeps, over any number of lives, any number of
`process` and `Stop` calls and any interleaving: one handler start and one
completion signal a life, and only clean objects are recycled.
*/
module TaskLife {
  import opened Options
  import opened Tasks

  /** No `process` call is past its state check. */
  predicate OutsideBody(pc: Pc) {
    pc.Unlocked? || pc.Locked? || pc.Unlocking?
  }

  /** The deferred signal, the deferred recover, or nothing at all. */
  predicate PastHandler(pc: Pc) {
    OutsideBody(pc) || pc.Signal? || pc.SignalWg? || pc.Recover?
  }

  /** Nothing of an earlier run is left. */
  predicate Clean(r: RunSide) {
    r == RunSide(OPEN_EMPTY, Stopped, true, NoHandler)
  }

  predicate StopClean(s: StopSide) {
    s.ch == OPEN_EMPTY && s.sending == 0 && s.closing == 0
  }

  /** Either the handler goroutine has not sent yet, or its message waits in localDoneCh. */
  predicate Working(r: RunSide) {
    r.ctxLive && r.localDone == Chan(if r.handler.NoHandler? then 1 else 0, false)
  }

  /** The handler's message has been received. */
  predicate Received(r: RunSide) {
    r.ctxLive && r.localDone == OPEN_EMPTY && r.handler.NoHandler?
  }

  predicate Unsignalled(h: Life) {
    h.starts == 1 && h.signals == 0 && h.failed == 0
  }

  /** Every started handler's completion signal has been sent, or has failed. */
  predicate Settled(h: Life) {
    h.starts <= 1 && h.doneSends <= h.starts && h.signals + h.failed == h.starts
  }

  predicate PcInv(pc: Pc, state: TaskState, run: RunSide, h: Life) {
    match pc
    case Unlocked => true
    case Locked => true
    case Unlocking => true
    case Begin => state.InProcess? && Clean(run) && h.starts == 0 && Settled(h)
    case ShortRun => state.InProcess? && Clean(run) && Unsignalled(h) && h.doneSends == 0
    case ShortDone => state.InProcess? && Clean(run) && Unsignalled(h) && h.doneSends == 0
    case Arm => state.InProcess? && Working(run) && run.timer.Stopped? && Unsignalled(h) && h.doneSends == 0
    case Select => state.InProcess? && Working(run) && Unsignalled(h) && h.doneSends == 0
    case StopTimer => state.InProcess? && Received(run) && Unsignalled(h) && h.doneSends == 0
    case DrainTimer => state.InProcess? && Received(run) && Unsignalled(h) && h.doneSends == 0
    case LongDone => state.InProcess? && Clean(run) && Unsignalled(h) && h.doneSends == 0
    case CancelCtx => !run.localDone.closed && Unsignalled(h) && h.doneSends == 0
    case CloseLocalDone => !run.localDone.closed && Unsignalled(h) && h.doneSends == 0
    case Signal(_) => Unsignalled(h) && h.doneSends == 0
    case SignalWg(_) => Unsignalled(h) && h.doneSends <= 1
    case Recover(_) => h.starts == 1 && Settled(h)
  }

  predicate Ended(pc: Pc, h: Life) {
    h.starts == 1 && (OutsideBody(pc) ==> Settled(h))
  }

  predicate StateInv(state: TaskState, pc: Pc, run: RunSide, h: Life, holder: Holder, putting: bool) {
    match state
    case New => Clean(run) && OutsideBody(pc) && Settled(h) && !holder.InUse? && !putting
    case PoolGet => Clean(run) && OutsideBody(pc) && Settled(h) && holder.InNewTask? && !putting
    case PoolPut => Clean(run) && OutsideBody(pc) && Settled(h) && holder.InPool? && !putting
    case Ready => Clean(run) && OutsideBody(pc) && h.starts == 0 && Settled(h) && holder.InUse? && !putting
    case InProcess => (OutsideBody(pc) ==> h.starts == 1 && Settled(h)) && holder.InUse? && !putting
    case DoneSuccess => Ended(pc, h) && PastHandler(pc) && Clean(run) && holder.InUse?
    case RecoverErr => Ended(pc, h) && OutsideBody(pc) && (putting ==> Clean(run)) && holder.InUse?
    case TerminatedStop => Ended(pc, h) && Interrupted(pc) && holder.InUse? && !putting
    case TerminatedTimeout => Ended(pc, h) && Interrupted(pc) && holder.InUse? && !putting
  }

  predicate Interrupted(pc: Pc) {
    pc.CancelCtx? || pc.CloseLocalDone? || PastHandler(pc)
  }

  /** The stop channel is dirty, or about to be, exactly when some Stop call passed its state test. */
  predicate StopInv(s: StopSide) {
    if s.calls == 0 then StopClean(s) else s.ch.closed || s.sending > 0 || s.closing > 0
  }

  predicate TaskInv(t: Task) {
    && PcInv(t.pc, t.state, t.run, t.life)
    && StateInv(t.state, t.pc, t.run, t.life, t.holder, t.putting)
    && StopInv(t.stop)
    && (t.putting || !t.holder.InUse? ==> t.responses == [])
  }

  predicate StartLabel(p: ProcessLabel) {
    p.Check? || p.Start? || p.ShortReturn? || p.ShortPanic? || p.ShortFinish?
  }

  predicate DoneLabel(p: ProcessLabel) {
    p.ArmTimer? || p.RecvDone? || p.TimerStop? || p.TimerDrain? || p.LongFinish?
  }

  predicate InterruptLabel(p: ProcessLabel) {
    p.RecvStop? || p.RecvTimeout? || p.CancelContext? || p.CloseDone?
  }

  lemma StartStepKeepsInv(t: Task, p: ProcessLabel)
    requires TaskInv(t) && StartLabel(p) && ProcessStep(t, p).Some?
    ensures TaskInv(ProcessStep(t, p).value)
  {
  }

  lemma DoneStepKeepsInv(t: Task, p: ProcessLabel)
    requires TaskInv(t) && DoneLabel(p) && ProcessStep(t, p).Some?
    ensures TaskInv(ProcessStep(t, p).value)
  {
  }

  lemma InterruptStepKeepsInv(t: Task, p: ProcessLabel)
    requires TaskInv(t) && InterruptLabel(p) && ProcessStep(t, p).Some?
    ensures TaskInv(ProcessStep(t, p).value)
  {
  }

  lemma SendDoneKeepsInv(t: Task, ok: bool)
    requires TaskInv(t) && ProcessStep(t, SendDone(ok)).Some?
    ensures TaskInv(ProcessStep(t, SendDone(ok)).value)
  {
  }

  lemma WgDoneKeepsInv(t: Task, ok: bool)
    requires TaskInv(t) && ProcessStep(t, WgDone(ok)).Some?
    ensures TaskInv(ProcessStep(t, WgDone(ok)).value)
  {
  }

  lemma RecoveredKeepsInv(t: Task)
    requires TaskInv(t) && ProcessStep(t, Recovered).Some?
    ensures TaskInv(ProcessStep(t, Recovered).value)
  {
  }

  lemma DeferredStepKeepsInv(t: Task, p: ProcessLabel)
    requires TaskInv(t) && (p.SendDone? || p.WgDone? || p.Recovered?) && ProcessStep(t, p).Some?
    ensures TaskInv(ProcessStep(t, p).value)
  {
    match p
    case SendDone(ok) => SendDoneKeepsInv(t, ok);
    case WgDone(ok) => WgDoneKeepsInv(t, ok);
    case _ => RecoveredKeepsInv(t);
  }

  lemma HandlerStepKeepsInv(t: Task, o: OutsideLabel)
    requires TaskInv(t) && (o.HandlerReturn? || o.HandlerPanic? || o.HandlerSend? || o.TimerFire?)
    requires OutsideStep(t, o).Some?
    ensures TaskInv(OutsideStep(t, o).value)
  {
  }

  lemma StopStepKeepsInv(t: Task, o: OutsideLabel)
    requires TaskInv(t) && (o.StopCheck? || o.StopSend? || o.StopClose?)
    requires OutsideStep(t, o).Some?
    ensures TaskInv(OutsideStep(t, o).value)
  {
  }

  lemma RecycleStepKeepsInv(t: Task, r: RecycleLabel)
    requires TaskInv(t) && RecycleStep(t, r).Some?
    ensures TaskInv(RecycleStep(t, r).value)
  {
  }

  lemma StepKeepsInv(t: Task, l: Label)
    requires TaskInv(t) && Step(t, l).Some?
    ensures TaskInv(Step(t, l).value)
  {
    match l
    case Process(p) =>
      if StartLabel(p) {
        StartStepKeepsInv(t, p);
      } else if DoneLabel(p) {
        DoneStepKeepsInv(t, p);
      } else if InterruptLabel(p) {
        InterruptStepKeepsInv(t, p);
      } else {
        DeferredStepKeepsInv(t, p);
      }
    case Outside(o) =>
      if o.StopCheck? || o.StopSend? || o.StopClose? {
        StopStepKeepsInv(t, o);
      } else {
        HandlerStepKeepsInv(t, o);
      }
    case Recycle(r) => RecycleStepKeepsInv(t, r);
    case _ =>
  }

  lemma {:induction false} RunKeepsInv(t: Task, labels: seq<Label>)
    requires TaskInv(t) && Run(t, labels).Some?
    ensures TaskInv(Run(t, labels).value)
    decreases |labels|
  {
    if labels != [] {
      StepKeepsInv(t, labels[0]);
      RunKeepsInv(Step(t, labels[0]).value, labels[1..]);
    }
  }

  // ----- One start, one signal, clean reuse -----

  /** In every run of one object, each completion signal of a life follows that life's own handler
      start, and there is at most one of each: no signal of an earlier life reaches a later one. */
  lemma OneStartOneSignal(labels: seq<Label>)
    requires Run(NewObject(), labels).Some?
    ensures var h := Run(NewObject(), labels).value.life;
      h.signals + h.failed <= h.starts <= 1 && h.doneSends <= h.starts
  {
    RunKeepsInv(NewObject(), labels);
  }

  /** When getTask hands an object out, the previous life's process has sent its signal and left its
      body, no handler runs, channel, timer and context are as new; and the stop channel is as new,
      with no Stop call under way, exactly when no Stop call ever passed its state test. */
  lemma RecycledObjectIsClean(labels: seq<Label>)
    requires Run(NewObject(), labels).Some? && Run(NewObject(), labels).value.holder.InNewTask?
    ensures var t := Run(NewObject(), labels).value;
      && OutsideBody(t.pc) && Settled(t.life) && Clean(t.run)
      && (StopClean(t.stop) <==> t.stop.calls == 0)
  {
    RunKeepsInv(NewObject(), labels);
  }

  /** The life ended by panic, timeout or stop: its state says so, or says it will, or it is left at
      IN_PROCESS by a stop channel found closed. */
  predicate Spoiled(t: Task) {
    || t.state.RecoverErr? || t.state.TerminatedStop? || t.state.TerminatedTimeout?
    || (t.state.InProcess? && Interrupted(t.pc))
  }

  lemma SpoiledStays(t: Task, l: Label)
    requires TaskInv(t) && !t.putting && Spoiled(t) && Step(t, l).Some?
    ensures var n := Step(t, l).value;
      Spoiled(n) && !n.putting && n.life.number == t.life.number && n.holder.InUse?
  {
    if l.Process? {
      SpoiledStaysInProcess(t, l.p);
    }
  }

  lemma SpoiledStaysInProcess(t: Task, p: ProcessLabel)
    requires TaskInv(t) && !t.putting && Spoiled(t) && ProcessStep(t, p).Some?
    ensures var n := ProcessStep(t, p).value;
      Spoiled(n) && !n.putting && n.life.number == t.life.number && n.holder.InUse?
  {
  }

  /** A life ended by panic, timeout or stop, by a closed stop channel too, is never handed out again,
      unless putTask had passed its test before. */
  lemma {:induction false} InterruptedIsNeverReused(t: Task, labels: seq<Label>)
    requires TaskInv(t) && !t.putting && Spoiled(t) && Run(t, labels).Some?
    ensures var n := Run(t, labels).value; n.life.number == t.life.number && n.holder.InUse?
    decreases |labels|
  {
    if labels != [] {
      StepKeepsInv(t, labels[0]);
      SpoiledStays(t, labels[0]);
      InterruptedIsNeverReused(Step(t, labels[0]).value, labels[1..]);
    }
  }

  /** Every way out of the wait but the handler's own message spoils the life. */
  lemma InterruptSpoils(t: Task, p: ProcessLabel)
    requires TaskInv(t) && t.pc.Select? && (p.RecvStop? || p.RecvTimeout?) && ProcessStep(t, p).Some?
    ensures Spoiled(ProcessStep(t, p).value) && !ProcessStep(t, p).value.putting
  {
  }

  /** What getTask hands out holds no responses, and NewTask makes a new life of it as its arguments say:
      nothing of an earlier one is left but the stop channel. */
  lemma NewLifeIsFresh(labels: seq<Label>, timeout: int, hasDoneCh: bool, wg: Option<int>)
    requires Run(NewObject(), labels).Some? && Run(NewObject(), labels).value.holder.InNewTask?
    ensures var t := Run(NewObject(), labels).value;
      var next := Step(t, Recycle(NewTask(timeout, hasDoneCh, wg)));
      && t.responses == [] && next.Some? && var u := next.value;
         && u.state.Ready? && u.timeout == timeout && u.hasDoneCh == hasDoneCh && u.wg == wg
         && u.err.NoErr? && u.responses == [] && Clean(u.run) && u.stop == t.stop
         && u.life.starts == 0 && u.life.signals == 0 && u.life.outcome.Pending? && u.life.number == t.life.number + 1
  {
    RunKeepsInv(NewObject(), labels);
  }

  /** A task that has ended well and is unlocked can be given back and handed out again. */
  lemma DoneObjectIsReused(t: Task)
    requires TaskInv(t) && t.state.DoneSuccess? && t.pc.Unlocked? && t.holder.InUse? && !t.putting
    ensures exists labels: seq<Label> :: Run(t, labels).Some? && Run(t, labels).value.holder.InNewTask?
  {
    var t1 := Step(t, Recycle(PutCheck)).value;
    var t2 := Step(t1, Recycle(PutLock)).value;
    var t3 := Step(t2, Recycle(Get)).value;
    assert Run(t, []) == Some(t);
    var labels := Extend(t, [], t, Recycle(PutCheck));
    labels := Extend(t, labels, t1, Recycle(PutLock));
    labels := Extend(t, labels, t2, Recycle(Get));
    assert Run(t, labels) == Some(t3);
  }

  /** A completion signal with nothing to send to cannot fail. */
  lemma NothingToSignalNeverFails(t: Task)
    ensures !t.hasDoneCh ==> ProcessStep(t, SendDone(false)).None?
    ensures t.wg.None? ==> ProcessStep(t, WgDone(false)).None?
  {
  }

  /** A process call that finds the task locked, or not ready, reports that and changes nothing else. */
  lemma RefusedCallOnlyReports(t: Task, l: Label)
    requires (l == Enter || l == EnterFails || l == Process(Check)) && Step(t, l).Some?
    ensures l == EnterFails ==> !t.pc.Unlocked? && Step(t, l).value == t.(err := LockedErr)
    ensures l == Process(Check) && !t.state.Ready? ==> Step(t, l).value == t.(err := StateErr, pc := Unlocking)
    ensures l == Enter ==> t.pc.Unlocked?
  {
  }

  // ----- A long task without an effective timeout -----

  predicate Untimed(t: Task) {
    (t.pc.Select? || t.pc.StopTimer? || t.pc.DrainTimer?) && t.run.timer.Stopped?
  }

  lemma UntimedStep(t: Task, l: Label)
    requires TaskInv(t) && Untimed(t) && Step(t, l).Some? && Step(t, l).value.stop.calls == 0
    ensures Untimed(Step(t, l).value) && Step(t, l).value.life.number == t.life.number
  {
  }

  lemma {:induction false} UntimedStaysUntimed(t: Task, labels: seq<Label>)
    requires TaskInv(t) && Untimed(t) && Run(t, labels).Some? && Run(t, labels).value.stop.calls == 0
    ensures Untimed(Run(t, labels).value) && TaskInv(Run(t, labels).value)
    ensures Run(t, labels).value.life.number == t.life.number
    decreases |labels|
  {
    if labels != [] {
      var next := Step(t, labels[0]).value;
      StepKeepsInv(t, labels[0]);
      StopCallsGrow(next, labels[1..]);
      UntimedStep(t, labels[0]);
      UntimedStaysUntimed(next, labels[1..]);
    }
  }

  lemma {:induction false} StopCallsGrow(t: Task, labels: seq<Label>)
    requires Run(t, labels).Some?
    ensures t.stop.calls <= Run(t, labels).value.stop.calls
    decreases |labels|
  {
    if labels != [] {
      StopCallsGrow(Step(t, labels[0]).value, labels[1..]);
    }
  }

  /** A run that brings this life's completion signal without any Stop call. */
  ghost predicate CanComplete(t: Task) {
    exists labels: seq<Label> :: Completes(t, labels)
  }

  predicate Completes(t: Task, labels: seq<Label>) {
    && Run(t, labels).Some?
    && Run(t, labels).value.life.number == t.life.number
    && Run(t, labels).value.life.signals == 1
    && Run(t, labels).value.stop.calls == 0
  }

  /** A long task that waits with an effective timeout can complete; one whose effective timeout is
      zero never signals unless it is stopped: even after its handler has returned, `process` waits
      for a timer that was never started. */
  lemma UntimedLongTaskHangs(t: Task, workerTimeout: int)
    requires TaskInv(t) && t.pc.Arm? && t.stop.calls == 0
    ensures CanComplete(ProcessStep(t, ArmTimer(workerTimeout)).value)
            <==> EffectiveTimeout(t.timeout, workerTimeout) > 0
  {
    var w := ProcessStep(t, ArmTimer(workerTimeout)).value;
    StepKeepsInv(t, Process(ArmTimer(workerTimeout)));
    if EffectiveTimeout(t.timeout, workerTimeout) > 0 {
      TimedCompletes(w);
    } else {
      UntimedNeverCompletes(w);
    }
  }

  const CLOSING := [Process(CloseDone), Process(SendDone(true)), Process(WgDone(true))]

  lemma ClosingCompletes(t: Task)
    requires TaskInv(t) && t.pc.CloseLocalDone? && t.stop.calls == 0
    ensures Completes(t, CLOSING)
  {
    var t1 := Step(t, Process(CloseDone)).value;
    var t2 := Step(t1, Process(SendDone(true))).value;
    CompletesBefore(t2, Process(WgDone(true)), []);
    CompletesBefore(t1, Process(SendDone(true)), [Process(WgDone(true))]);
    CompletesBefore(t, Process(CloseDone), [Process(SendDone(true))] + [Process(WgDone(true))]);
  }

  /** The schedule on which the timer fires and its message is received first. */
  lemma TimedCompletes(t: Task)
    requires TaskInv(t) && t.pc.Select? && t.run.timer.Armed? && t.stop.calls == 0
    ensures CanComplete(t)
  {
    var t1 := Step(t, Outside(TimerFire)).value;
    var t2 := Step(t1, Process(RecvTimeout)).value;
    var t3 := Step(t2, Process(CancelContext)).value;
    StepKeepsInv(t, Outside(TimerFire));
    StepKeepsInv(t1, Process(RecvTimeout));
    StepKeepsInv(t2, Process(CancelContext));
    ClosingCompletes(t3);
    CompletesBefore(t2, Process(CancelContext), CLOSING);
    CompletesBefore(t1, Process(RecvTimeout), [Process(CancelContext)] + CLOSING);
    CompletesBefore(t, Outside(TimerFire), [Process(RecvTimeout)] + ([Process(CancelContext)] + CLOSING));
  }

  lemma CompletesBefore(t: Task, l: Label, rest: seq<Label>)
    requires Step(t, l).Some? && Completes(Step(t, l).value, rest)
    requires Step(t, l).value.life.number == t.life.number
    ensures Completes(t, [l] + rest)
  {
    assert ([l] + rest)[1..] == rest;
  }

  // ----- What the outside world can read when the signal comes -----

  /** The handler's return values, or its panic, can be read from the task. */
  predicate Told(t: Task) {
    match t.life.outcome
    case Pending => false
    case Returned(e, r) => t.err == e && t.responses == r
    case Panicked => t.err == PanicErr
  }

  /** What err says after a life that did not end by the handler's own return: the interruption, until the
      handler, if it is still running, ends and writes its own outcome over it. */
  predicate EndRecord(t: Task) {
    && (t.run.handler.HandlerRunning? ==> t.life.outcome.Pending?)
    && (t.state.TerminatedTimeout? ==> !IsShort(t) && (t.err == TimeoutErr || Told(t)))
    && (t.state.TerminatedStop? ==> !IsShort(t) && (t.err == StopErr || Told(t)))
    && (t.state.RecoverErr? ==> t.err == PanicErr || (!IsShort(t) && Told(t)))
    && (t.state.InProcess? && LeftAtClosedStop(t.pc) ==> t.stop.ch.closed && t.stop.ch.buffered == 0)
  }

  /** A life interrupted by timeout or stop cancels its context and closes its local channel before it signals,
      and a timer that fired was read. */
  predicate CutOff(t: Task) {
    && (t.state.TerminatedTimeout? ==> t.run.timer.Stopped?)
    && (t.state.TerminatedTimeout? || t.state.TerminatedStop? || (t.state.InProcess? && LeftAtClosedStop(t.pc)) ==>
          && (!t.pc.CancelCtx? ==> !t.run.ctxLive)
          && (!t.pc.CancelCtx? && !t.pc.CloseLocalDone? ==> t.run.localDone.closed))
  }

  /** The completion signal is one message if there is a channel for it, and none otherwise. */
  predicate SignalRecord(t: Task) {
    t.pc.SignalWg? || t.life.signals == 1 ==> t.life.doneSends == if t.hasDoneCh then 1 else 0
  }

  /** Where a life IN_PROCESS can be only if the stop channel was found closed. */
  predicate LeftAtClosedStop(pc: Pc) {
    || OutsideBody(pc) || pc.CancelCtx? || pc.CloseLocalDone?
    || pc == Signal(false) || pc == SignalWg(false) || pc == Recover(false)
  }

  predicate RecordInv(t: Task) {
    && EndRecord(t) && CutOff(t) && SignalRecord(t)
    && (t.state.Ready? ==> Untouched(t))
    && (t.state.DoneSuccess? ==> Told(t) && (IsShort(t) ==> t.life.outcome.Returned?))
    && (IsShort(t) ==> t.run.handler.NoHandler?)
    && (IsShort(t) && t.life.signals == 1 && t.life.outcome.Returned? ==> t.state.DoneSuccess?)
    && match t.pc
       case Begin => Untouched(t)
       case ShortRun => IsShort(t) && Untouched(t)
       case ShortDone => IsShort(t) && Told(t) && t.life.outcome.Returned?
       case Arm => LongRecord(t)
       case Select => LongRecord(t)
       case StopTimer => !IsShort(t) && Told(t)
       case DrainTimer => !IsShort(t) && Told(t)
       case LongDone => !IsShort(t) && Told(t)
       case CancelCtx => !IsShort(t)
       case CloseLocalDone => !IsShort(t)
       case Signal(panicking) => ShortRecord(t, panicking)
       case SignalWg(panicking) => ShortRecord(t, panicking)
       case Recover(panicking) => IsShort(t) && t.life.signals == 1 && panicking ==> t.life.outcome.Panicked?
       case _ => true
  }

  predicate Untouched(t: Task) {
    t.life.outcome.Pending? && t.err == NoErr
  }

  predicate LongRecord(t: Task) {
    !IsShort(t) && if t.run.handler.HandlerRunning? then t.life.outcome.Pending? else Told(t)
  }

  predicate ShortRecord(t: Task, panicking: bool) {
    IsShort(t) ==>
      if panicking then t.life.outcome.Panicked? && t.err == NoErr && !t.state.DoneSuccess?
      else t.state.DoneSuccess?
  }

  /** The steps one `process` call per life leaves: no call finds the task locked or in another state. */
  predicate SingleCall(t: Task, l: Label) {
    !l.EnterFails? && !l.Recycle? && (l == Process(Check) ==> t.state.Ready?)
  }

  lemma StartKeepsRecord(t: Task, p: ProcessLabel)
    requires TaskInv(t) && RecordInv(t) && (p.Check? ==> t.state.Ready?)
    requires StartLabel(p) && ProcessStep(t, p).Some?
    ensures RecordInv(ProcessStep(t, p).value)
  {
  }

  lemma DoneKeepsRecord(t: Task, p: ProcessLabel)
    requires TaskInv(t) && RecordInv(t) && DoneLabel(p) && ProcessStep(t, p).Some?
    ensures RecordInv(ProcessStep(t, p).value)
  {
  }

  lemma InterruptKeepsRecord(t: Task, p: ProcessLabel)
    requires TaskInv(t) && RecordInv(t) && InterruptLabel(p) && ProcessStep(t, p).Some?
    ensures RecordInv(ProcessStep(t, p).value)
  {
  }

  lemma SendDoneKeepsRecord(t: Task, ok: bool)
    requires TaskInv(t) && RecordInv(t) && ProcessStep(t, SendDone(ok)).Some?
    ensures RecordInv(ProcessStep(t, SendDone(ok)).value)
  {
  }

  lemma WgDoneKeepsRecord(t: Task, ok: bool)
    requires TaskInv(t) && RecordInv(t) && ProcessStep(t, WgDone(ok)).Some?
    ensures RecordInv(ProcessStep(t, WgDone(ok)).value)
  {
  }

  lemma RecoveredKeepsRecord(t: Task)
    requires TaskInv(t) && RecordInv(t) && ProcessStep(t, Recovered).Some?
    ensures RecordInv(ProcessStep(t, Recovered).value)
  {
  }

  lemma DeferredKeepsRecord(t: Task, p: ProcessLabel)
    requires TaskInv(t) && RecordInv(t) && (p.SendDone? || p.WgDone? || p.Recovered?) && ProcessStep(t, p).Some?
    ensures RecordInv(ProcessStep(t, p).value)
  {
    match p
    case SendDone(ok) => SendDoneKeepsRecord(t, ok);
    case WgDone(ok) => WgDoneKeepsRecord(t, ok);
    case _ => RecoveredKeepsRecord(t);
  }

  lemma HandlerKeepsRecord(t: Task, o: OutsideLabel)
    requires TaskInv(t) && RecordInv(t) && (o.HandlerReturn? || o.HandlerPanic? || o.HandlerSend? || o.TimerFire?)
    requires OutsideStep(t, o).Some?
    ensures RecordInv(OutsideStep(t, o).value)
  {
  }

  lemma StopKeepsRecord(t: Task, o: OutsideLabel)
    requires TaskInv(t) && RecordInv(t) && (o.StopCheck? || o.StopSend? || o.StopClose?) && OutsideStep(t, o).Some?
    ensures RecordInv(OutsideStep(t, o).value)
  {
  }

  lemma OutsideKeepsRecord(t: Task, o: OutsideLabel)
    requires TaskInv(t) && RecordInv(t) && OutsideStep(t, o).Some?
    ensures RecordInv(OutsideStep(t, o).value)
  {
    if o.StopCheck? || o.StopSend? || o.StopClose? {
      StopKeepsRecord(t, o);
    } else {
      HandlerKeepsRecord(t, o);
    }
  }

  lemma StepKeepsRecord(t: Task, l: Label)
    requires TaskInv(t) && RecordInv(t) && SingleCall(t, l) && Step(t, l).Some?
    ensures RecordInv(Step(t, l).value)
  {
    match l
    case Process(p) =>
      if StartLabel(p) {
        StartKeepsRecord(t, p);
      } else if DoneLabel(p) {
        DoneKeepsRecord(t, p);
      } else if InterruptLabel(p) {
        InterruptKeepsRecord(t, p);
      } else {
        DeferredKeepsRecord(t, p);
      }
    case Outside(o) => OutsideKeepsRecord(t, o);
    case _ =>
  }

  /** At the completion signal of a short task its outcome can be read exactly when the handler
      returned: the signal is sent before a panic is recorded. */
  lemma SignalBeforeRecord(t: Task)
    requires TaskInv(t) && RecordInv(t) && IsShort(t) && t.pc.SignalWg?
    ensures Told(t) <==> t.life.outcome.Returned?
  {
  }

  lemma {:induction false} RunConcat(t: Task, a: seq<Label>, b: seq<Label>)
    requires Run(t, a).Some?
    ensures Run(t, a + b) == Run(Run(t, a).value, b)
    decreases |a|
  {
    if a == [] {
      assert a + b == b;
    } else {
      assert (a + b)[0] == a[0] && (a + b)[1..] == a[1..] + b;
      RunConcat(Step(t, a[0]).value, a[1..], b);
    }
  }

  lemma Extend(t: Task, labels: seq<Label>, u: Task, l: Label) returns (longer: seq<Label>)
    requires Run(t, labels) == Some(u)
    ensures longer == labels + [l] && Run(t, longer) == Step(u, l)
  {
    longer := labels + [l];
    RunConcat(t, labels, [l]);
    assert Step(u, l).Some? ==> Run(Step(u, l).value, [l][1..]) == Step(u, l);
  }

  /** A group is told of the end of a short task whose panic cannot be read yet: the signal is out, the error is nil. */
  lemma PanicIsSignalledUnrecorded() returns (labels: seq<Label>, t: Task)
    ensures Run(NewObject(), labels) == Some(t)
    ensures t.life.signals == 1 && t.life.outcome == Panicked && t.err == NoErr && !Told(t)
  {
    labels, t := StartedShortTask();
    labels := Extend(NewObject(), labels, t, Process(ShortPanic));
    t := Step(t, Process(ShortPanic)).value;
    labels := Extend(NewObject(), labels, t, Process(SendDone(true)));
    t := Step(t, Process(SendDone(true))).value;
    labels := Extend(NewObject(), labels, t, Process(WgDone(true)));
    t := Step(t, Process(WgDone(true))).value;
  }

  lemma StartedShortTask() returns (labels: seq<Label>, t: Task)
    ensures Run(NewObject(), labels) == Some(t)
    ensures t.pc.ShortRun? && t.err == NoErr && t.life.signals == 0 && !t.hasDoneCh
  {
    labels, t := StartedTask(-1);
  }

  lemma StartedTask(timeout: int) returns (labels: seq<Label>, t: Task)
    ensures Run(NewObject(), labels) == Some(t)
    ensures t.pc == (if timeout < 0 then ShortRun else Arm) && t.err == NoErr && t.life.signals == 0 && !t.hasDoneCh
    ensures t.timeout == timeout && t.stop.calls == 0 && t.run.timer.Stopped? && t.run.localDone == OPEN_EMPTY
    ensures t.run.handler == if timeout < 0 then NoHandler else HandlerRunning
  {
    var birth := Recycle(NewTask(timeout, false, Some(0)));
    t := NewObject();
    labels := Extend(NewObject(), [], t, Recycle(Get));
    t := Step(t, Recycle(Get)).value;
    labels := Extend(NewObject(), labels, t, birth);
    t := Step(t, birth).value;
    labels := Extend(NewObject(), labels, t, Enter);
    t := Step(t, Enter).value;
    labels := Extend(NewObject(), labels, t, Process(Check));
    t := Step(t, Process(Check)).value;
    labels := Extend(NewObject(), labels, t, Process(Start));
    t := Step(t, Process(Start)).value;
  }

  /** A long task created with timeout 0 and run by a worker without timeout comes to wait, its handler
      returns and sends its message, and still it can never complete unless it is stopped. */
  lemma UntimedTaskHangs(code: Option<int>, values: seq<int>) returns (labels: seq<Label>, t: Task)
    ensures Run(NewObject(), labels) == Some(t)
    ensures t.life.outcome == Returned(ErrOf(code), values) && t.run.handler.NoHandler? && t.life.signals == 0
    ensures t.stop.calls == 0 && !CanComplete(t)
  {
    labels, t := StartedTask(0);
    labels := Extend(NewObject(), labels, t, Process(ArmTimer(0)));
    t := Step(t, Process(ArmTimer(0))).value;
    labels := Extend(NewObject(), labels, t, Outside(HandlerReturn(code, values)));
    t := Step(t, Outside(HandlerReturn(code, values))).value;
    labels := Extend(NewObject(), labels, t, Outside(HandlerSend));
    t := Step(t, Outside(HandlerSend)).value;
    RunKeepsInv(NewObject(), labels);
    UntimedNeverCompletes(t);
  }

  lemma UntimedNeverCompletes(t: Task)
    requires TaskInv(t) && Untimed(t)
    ensures !CanComplete(t)
  {
    forall labels: seq<Label> | Completes(t, labels)
      ensures false
    {
      UntimedStaysUntimed(t, labels);
    }
  }
}
