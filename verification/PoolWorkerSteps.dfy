/** The steps of Worker.run and of the process calls inside it keep the pool invariant. */
module PoolWorkerSteps {
  import opened Options
  import T = Tasks
  import L = TaskLife
  import opened PoolMachine
  import opened PoolInvariant
  import opened PoolFrames

  // ----- Steps that change the worker only -----

  predicate Opening(l: WorkerLabel) {
    l.TryRun? || l.TestState? || l.CreateStop?
  }

  predicate Closing(l: WorkerLabel) {
    l.MarkRecover? || l.MarkTerminated? || l.Release?
  }

  /** The token goes from a spawned run call to a live one, or to a failing one; the state test never fails. */
  lemma OpeningKeepsWorker(w: WorkerId, k: Worker, errs: seq<WorkerId>, runner: RunnerPc,
                           ctxLive: bool, queue: Fifo<TaskId>, l: WorkerLabel)
    requires WorkerInv(w, k, errs, runner) && Opening(l) && LocalNext(ctxLive, queue, k, l).Some?
    ensures var u := LocalNext(ctxLive, queue, k, l).value;
      WorkerInv(w, u, errs, runner) && SamePlace(k.pc, u.pc)
  {
  }

  lemma ClosingKeepsWorker(w: WorkerId, k: Worker, errs: seq<WorkerId>, runner: RunnerPc,
                           ctxLive: bool, queue: Fifo<TaskId>, l: WorkerLabel)
    requires WorkerInv(w, k, errs, runner) && Closing(l) && LocalNext(ctxLive, queue, k, l).Some?
    ensures var u := LocalNext(ctxLive, queue, k, l).value;
      WorkerInv(w, u, errs, runner) && SamePlace(k.pc, u.pc)
  {
  }

  lemma LoopKeepsWorker(w: WorkerId, k: Worker, errs: seq<WorkerId>, runner: RunnerPc,
                        ctxLive: bool, queue: Fifo<TaskId>, l: WorkerLabel)
    requires WorkerInv(w, k, errs, runner) && !Opening(l) && !Closing(l)
    requires LocalNext(ctxLive, queue, k, l).Some?
    ensures var u := LocalNext(ctxLive, queue, k, l).value;
      WorkerInv(w, u, errs, runner) && SamePlace(k.pc, u.pc)
  {
  }

  lemma WorkerKeepsWorkers(workers: seq<Worker>, w: WorkerId, k: Worker, errs: seq<WorkerId>, runner: RunnerPc)
    requires WorkersInv(workers, errs, runner) && w < |workers| && WorkerInv(w, k, errs, runner)
    ensures WorkersInv(workers[w := k], errs, runner)
  {
    var after := workers[w := k];
    forall v: nat | v < |after|
      ensures WorkerInv(v, after[v], errs, runner)
    {
      assert WorkerInv(v, workers[v], errs, runner);
    }
  }

  /** Replacing one worker keeps the whole invariant when the worker keeps its own part and its task. */
  lemma ReplaceWorker(s: Pool, n: Pool, w: WorkerId, k: Worker)
    requires Inv(s) && w < |s.workers| && n == s.(workers := s.workers[w := k])
    requires WorkerInv(w, k, s.errs.items, s.ctl.runner) && SamePlace(s.workers[w].pc, k.pc)
    ensures Inv(n)
  {
    WorkerKeepsWorkers(s.workers, w, k, s.errs.items, s.ctl.runner);
    WorkerMoves(s.tasks, s.loc, s.workers, w, k);
    ClientsCarryOver(s, n);
  }

  // ----- Reports -----

  /** The worker's token goes from the run call to the channel. */
  lemma ReportKeepsErrs(workers: seq<Worker>, w: WorkerId, k: Worker, errs: seq<WorkerId>, runner: RunnerPc)
    requires WorkersInv(workers, errs, runner) && ErrsInv(errs, |workers|, runner) && w < |workers|
    requires w !in errs && WorkerInv(w, k, errs + [w], runner)
    ensures WorkersInv(workers[w := k], errs + [w], runner) && ErrsInv(errs + [w], |workers|, runner)
  {
    var after := workers[w := k];
    forall v: nat | v < |after|
      ensures WorkerInv(v, after[v], errs + [w], runner)
    {
      assert WorkerInv(v, workers[v], errs, runner);
      assert v != w ==> (v in errs + [w] <==> v in errs);
    }
  }

  lemma ReportKeepsInv(s: Pool, w: WorkerId, l: WorkerLabel)
    requires Inv(s) && w < |s.workers| && ReportNext(s, w, l).Some?
    ensures Inv(ReportNext(s, w, l).value)
  {
    var n := ReportNext(s, w, l).value;
    assert WorkerInv(w, s.workers[w], s.errs.items, s.ctl.runner);
    ReportKeepsErrs(s.workers, w, n.workers[w], s.errs.items, s.ctl.runner);
    WorkerMoves(s.tasks, s.loc, s.workers, w, n.workers[w]);
    ClientsCarryOver(s, n);
  }

  // ----- Steps that move a task -----

  lemma TakeKeepsQueue(queue: seq<TaskId>, loc: map<TaskId, Loc>, w: WorkerId)
    requires QueueInv(queue, loc) && queue != []
    ensures QueueInv(queue[1..], loc[queue[0] := Held(w)])
  {
    var after := loc[queue[0] := Held(w)];
    forall x | x in after && after[x] == Queued
      ensures x in queue[1..]
    {
      assert x in queue && x != queue[0];
    }
  }

  lemma TakeKeepsHolders(s: Pool, w: WorkerId, t: TaskId, k: Worker)
    requires HoldInv(s.workers, s.loc) && TasksInv(s.tasks, s.loc, s.workers)
    requires w < |s.workers| && HeldTask(s.workers[w].pc).None? && t in s.loc && s.loc[t] == Queued && k.pc == Got(t)
    ensures HoldInv(s.workers[w := k], s.loc[t := Held(w)])
    ensures TasksInv(s.tasks, s.loc[t := Held(w)], s.workers[w := k])
  {
    var workers, loc := s.workers[w := k], s.loc[t := Held(w)];
    forall x | x in s.tasks
      ensures PlaceInv(s.tasks[x], loc[x], workers)
    {
      assert PlaceInv(s.tasks[x], s.loc[x], s.workers);
    }
  }

  lemma DropKeepsPlaces(s: Pool, n: Pool, w: WorkerId, t: TaskId)
    requires QueueInv(s.queue.items, s.loc) && HoldInv(s.workers, s.loc) && TasksInv(s.tasks, s.loc, s.workers)
    requires w < |s.workers| && HeldTask(s.workers[w].pc) == Some(t) && n.loc.Keys == s.loc.Keys && t in n.loc
    requires n.tasks == s.tasks && n.queue == s.queue && n.loc == s.loc[t := n.loc[t]]
    requires n.loc[t].Lost? || n.loc[t].Finished?
    requires PlaceInv(s.tasks[t], n.loc[t], s.workers)
    requires |n.workers| == |s.workers| && n.workers == s.workers[w := n.workers[w]] && HeldTask(n.workers[w].pc).None?
    ensures QueueInv(n.queue.items, n.loc) && HoldInv(n.workers, n.loc) && TasksInv(n.tasks, n.loc, n.workers)
  {
    forall x | x in n.tasks
      ensures PlaceInv(n.tasks[x], n.loc[x], n.workers)
    {
      assert PlaceInv(s.tasks[x], s.loc[x], s.workers);
    }
  }

  lemma TakeKeepsInv(s: Pool, w: WorkerId)
    requires Inv(s) && w < |s.workers| && MoveNext(s, w, TakeTask).Some?
    ensures Inv(MoveNext(s, w, TakeTask).value)
  {
    var n := MoveNext(s, w, TakeTask).value;
    assert WorkerInv(w, s.workers[w], s.errs.items, s.ctl.runner);
    WorkerKeepsWorkers(s.workers, w, n.workers[w], s.errs.items, s.ctl.runner);
    TakeKeepsQueue(s.queue.items, s.loc, w);
    TakeKeepsHolders(s, w, s.queue.items[0], n.workers[w]);
    ClientsCarryOver(s, n);
  }

  lemma DropKeepsInv(s: Pool, w: WorkerId, l: WorkerLabel)
    requires Inv(s) && w < |s.workers| && (l.LosePanic? || l.ClearTask?) && MoveNext(s, w, l).Some?
    ensures Inv(MoveNext(s, w, l).value)
  {
    var n := MoveNext(s, w, l).value;
    var t := s.workers[w].pc.t;
    assert WorkerInv(w, s.workers[w], s.errs.items, s.ctl.runner);
    assert PlaceInv(s.tasks[t], s.loc[t], s.workers);
    WorkerKeepsWorkers(s.workers, w, n.workers[w], s.errs.items, s.ctl.runner);
    DropKeepsPlaces(s, n, w, t);
    ClientsCarryOver(s, n);
  }

  // ----- Steps of process -----

  /** The worker's task and the worker's stage change together. */
  lemma StageKeepsPlaces(s: Pool, n: Pool, w: WorkerId, t: TaskId)
    requires HoldInv(s.workers, s.loc) && TasksInv(s.tasks, s.loc, s.workers)
    requires w < |s.workers| && HeldTask(s.workers[w].pc) == Some(t) && t in s.tasks
    requires n.loc == s.loc && t in n.tasks && n.tasks == s.tasks[t := n.tasks[t]]
    requires |n.workers| == |s.workers| && n.workers == s.workers[w := n.workers[w]] && HeldTask(n.workers[w].pc) == Some(t)
    requires L.TaskInv(n.tasks[t]) && L.RecordInv(n.tasks[t]) && PlaceInv(n.tasks[t], Held(w), n.workers)
    ensures HoldInv(n.workers, n.loc) && TasksInv(n.tasks, n.loc, n.workers)
  {
    assert s.loc[t] == Held(w);
    forall x | x in n.tasks
      ensures PlaceInv(n.tasks[x], n.loc[x], n.workers)
    {
      assert PlaceInv(s.tasks[x], s.loc[x], s.workers);
    }
  }

  /** Entering and leaving process: the lock is free on the way in, the signal sent on the way out. */
  lemma DoorKeepsTask(t: T.Task, inside: T.Task, l: T.Label)
    requires L.TaskInv(t) && L.RecordInv(t) && T.Step(t, l) == Some(inside)
    requires (l.Enter? && Waiting(t)) || (l.Unlock? && t.life.starts == 1)
    ensures L.TaskInv(inside) && L.RecordInv(inside)
    ensures inside.wg == t.wg && inside.life.signals == t.life.signals
    ensures l.Unlock? ==> Processed(inside)
    ensures l.Enter? ==> inside.pc.Locked? && inside.state.Ready?
  {
    L.StepKeepsInv(t, l);
    L.StepKeepsRecord(t, l);
  }

  lemma DoorKeepsInv(s: Pool, w: WorkerId, l: WorkerLabel)
    requires Inv(s) && w < |s.workers| && (l.EnterTask? || l.LeaveTask?) && ProcessNext(s, w, l).Some?
    ensures Inv(ProcessNext(s, w, l).value)
  {
    var n := ProcessNext(s, w, l).value;
    var t := s.workers[w].pc.t;
    assert WorkerInv(w, s.workers[w], s.errs.items, s.ctl.runner);
    assert PlaceInv(s.tasks[t], s.loc[t], s.workers);
    DoorKeepsTask(s.tasks[t], n.tasks[t], if l.EnterTask? then T.Enter else T.Unlock);
    WorkerKeepsWorkers(s.workers, w, n.workers[w], s.errs.items, s.ctl.runner);
    StageKeepsPlaces(s, n, w, t);
    SameOutstanding(s.tasks, s.added, t, n.tasks[t], s.wg);
    DoorKeepsClients(s, n, t);
  }

  lemma DoorKeepsClients(s: Pool, n: Pool, t: TaskId)
    requires ClientsInv(s) && t in s.tasks && t in n.tasks && n.tasks == s.tasks[t := n.tasks[t]]
    requires n.tasks[t].wg == s.tasks[t].wg && SameSlots(s, n) && n.wg.Keys == s.wg.Keys && n.loc == s.loc
    ensures ClientsInv(n)
  {
    forall x | x in n.tasks
      ensures OwnerInv(n, x)
    {
      assert OwnerInv(s, x);
    }
  }

  predicate SameSlots(s: Pool, n: Pool) {
    s.cfg == n.cfg && s.clients == n.clients && s.added == n.added
  }

  /** A task inside the process call of its worker, which no other call of this life has touched. */
  predicate InCall(t: T.Task) {
    !t.pc.Unlocked? && (t.pc.Locked? ==> t.state.Ready?) && (t.pc.Unlocking? ==> t.life.starts == 1)
  }

  lemma InsideStepKeepsTask(t: T.Task, p: T.ProcessLabel)
    requires L.TaskInv(t) && L.RecordInv(t) && InCall(t) && T.ProcessStep(t, p).Some?
    ensures var u := T.ProcessStep(t, p).value; L.TaskInv(u) && L.RecordInv(u)
  {
    L.StepKeepsInv(t, T.Process(p));
    L.StepKeepsRecord(t, T.Process(p));
  }

  /** The call goes on inside; only the wait-group step changes the number of signals, from 0 to 1. */
  lemma InsideStepKeepsCall(t: T.Task, p: T.ProcessLabel)
    requires L.PcInv(t.pc, t.state, t.run, t.life) && InCall(t) && T.ProcessStep(t, p).Some?
    ensures var u := T.ProcessStep(t, p).value;
      && u.wg == t.wg && InCall(u) && !u.pc.Locked?
      && u.life.signals == (if p == T.WgDone(true) then 1 else t.life.signals)
      && (p.WgDone? ==> t.life.signals == 0)
  {
  }

  /** A signal takes its task, and no other, out of the outstanding ones. */
  lemma SignalKeepsWg(s: Pool, t: TaskId, u: T.Task, c: ClientId, wg: map<ClientId, int>)
    requires WgInv(s.wg, s.tasks, s.added) && c in s.wg && t in s.tasks && t in s.added
    requires s.tasks[t].wg == Some(c) == u.wg && s.tasks[t].life.signals == 0 && u.life.signals == 1
    requires wg == s.wg[c := s.wg[c] - 1]
    ensures WgInv(wg, s.tasks[t := u], s.added)
  {
    forall d | d in wg
      ensures wg[d] == |Outstanding(s.tasks[t := u], s.added, d)|
    {
      var before := Outstanding(s.tasks, s.added, d);
      assert Outstanding(s.tasks[t := u], s.added, d) == if d == c then before - {t} else before;
      assert d == c ==> t in before;
    }
  }

  /** The counter of a task that is about to signal is positive. */
  lemma SignalFindsCount(s: Pool, t: TaskId, c: ClientId)
    requires WgInv(s.wg, s.tasks, s.added) && c in s.wg && t in s.tasks && t in s.added
    requires s.tasks[t].wg == Some(c) && s.tasks[t].life.signals == 0
    ensures s.wg[c] > 0
  {
    assert t in Outstanding(s.tasks, s.added, c);
  }

  lemma HeldIsAdded(s: Pool, t: TaskId)
    requires ClientsInv(s) && t in s.tasks && t in s.loc && !s.loc[t].Fresh?
    ensures t in s.added && s.tasks[t].wg.Some? && s.tasks[t].wg.value in s.wg
  {
    assert OwnerInv(s, t);
  }

  lemma InsideKeepsWg(s: Pool, w: WorkerId, l: WorkerLabel)
    requires TasksInv(s.tasks, s.loc, s.workers) && HoldInv(s.workers, s.loc)
    requires ClientsInv(s) && WgInv(s.wg, s.tasks, s.added)
    requires w < |s.workers| && l.InTask? && ProcessNext(s, w, l).Some?
    ensures var n := ProcessNext(s, w, l).value; WgInv(n.wg, n.tasks, n.added) && n.wg.Keys == s.wg.Keys
  {
    var n := ProcessNext(s, w, l).value;
    var t := s.workers[w].pc.t;
    assert PlaceInv(s.tasks[t], s.loc[t], s.workers);
    InsideStepKeepsCall(s.tasks[t], l.p);
    HeldIsAdded(s, t);
    if l.p.WgDone? {
      var c := s.tasks[t].wg.value;
      SignalFindsCount(s, t, c);
      SignalKeepsWg(s, t, n.tasks[t], c, n.wg);
    } else {
      SameOutstanding(s.tasks, s.added, t, n.tasks[t], s.wg);
    }
  }

  lemma InsideKeepsPlaces(s: Pool, w: WorkerId, l: WorkerLabel)
    requires TasksInv(s.tasks, s.loc, s.workers) && HoldInv(s.workers, s.loc) && ClientsInv(s)
    requires w < |s.workers| && l.InTask? && ProcessNext(s, w, l).Some?
    requires ProcessNext(s, w, l).value.wg.Keys == s.wg.Keys
    ensures var n := ProcessNext(s, w, l).value; TasksInv(n.tasks, n.loc, n.workers) && ClientsInv(n)
  {
    var n := ProcessNext(s, w, l).value;
    var t := s.workers[w].pc.t;
    assert PlaceInv(s.tasks[t], s.loc[t], s.workers);
    InsideStepKeepsTask(s.tasks[t], l.p);
    InsideStepKeepsCall(s.tasks[t], l.p);
    StageKeepsPlaces(s, n, w, t);
    DoorKeepsClients(s, n, t);
  }

  lemma InsideShape(s: Pool, w: WorkerId, l: WorkerLabel)
    requires w < |s.workers| && l.InTask? && ProcessNext(s, w, l).Some?
    ensures var n := ProcessNext(s, w, l).value; n == s.(tasks := n.tasks, wg := n.wg)
  {
  }

  lemma InsideKeepsInv(s: Pool, w: WorkerId, l: WorkerLabel)
    requires Inv(s) && w < |s.workers| && l.InTask? && ProcessNext(s, w, l).Some?
    ensures Inv(ProcessNext(s, w, l).value)
  {
    InsideShape(s, w, l);
    InsideKeepsWg(s, w, l);
    InsideKeepsPlaces(s, w, l);
  }

  lemma WorkerKeepsInv(s: Pool, w: WorkerId, l: WorkerLabel)
    requires Inv(s) && WorkerNext(s, w, l).Some?
    ensures Inv(WorkerNext(s, w, l).value)
  {
    var n := WorkerNext(s, w, l).value;
    if l.ReportTaken? || l.ReportState? || l.ReportPanic? {
      ReportKeepsInv(s, w, l);
    } else if l.TakeTask? {
      TakeKeepsInv(s, w);
    } else if l.LosePanic? || l.ClearTask? {
      DropKeepsInv(s, w, l);
    } else if l.EnterTask? || l.LeaveTask? {
      DoorKeepsInv(s, w, l);
    } else if l.InTask? {
      InsideKeepsInv(s, w, l);
    } else {
      assert WorkerInv(w, s.workers[w], s.errs.items, s.ctl.runner);
      if Opening(l) {
        OpeningKeepsWorker(w, s.workers[w], s.errs.items, s.ctl.runner, s.ctl.ctxLive, s.queue, l);
      } else if Closing(l) {
        ClosingKeepsWorker(w, s.workers[w], s.errs.items, s.ctl.runner, s.ctl.ctxLive, s.queue, l);
      } else {
        LoopKeepsWorker(w, s.workers[w], s.errs.items, s.ctl.runner, s.ctl.ctxLive, s.queue, l);
      }
      ReplaceWorker(s, n, w, n.workers[w]);
    }
  }
}
