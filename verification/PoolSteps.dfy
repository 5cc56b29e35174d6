/** Every step of module PoolMachine keeps the invariant, actor by actor. */
module PoolSteps {
  import opened Options
  import L = TaskLife
  import opened PoolMachine
  import opened PoolInvariant
  import opened PoolFrames

  // ----- RunBG -----

  lemma RunnerKeepsCtl(s: Pool, l: RunnerLabel)
    requires CtlInv(s.ctl, s.queue.closed, s.errs.closed)
    requires SizeInv(s.ctl.runner, |s.workers|, s.cfg.concurrency)
    requires RunnerNext(s, l).Some?
    ensures var n := RunnerNext(s, l).value;
      && CtlInv(n.ctl, n.queue.closed, n.errs.closed)
      && SizeInv(n.ctl.runner, |n.workers|, n.cfg.concurrency)
  {
  }

  /** The restart token goes from the channel to the runner, and from the runner to a new run call. */
  lemma RestartKeepsWorkers(s: Pool, l: RunnerLabel)
    requires WorkersInv(s.workers, s.errs.items, s.ctl.runner) && ErrsInv(s.errs.items, |s.workers|, s.ctl.runner)
    requires l.RecvErr? || l.Restart?
    requires RunnerNext(s, l).Some?
    ensures var n := RunnerNext(s, l).value;
      WorkersInv(n.workers, n.errs.items, n.ctl.runner) && ErrsInv(n.errs.items, |n.workers|, n.ctl.runner)
  {
    var n := RunnerNext(s, l).value;
    forall w: nat | w < |n.workers|
      ensures WorkerInv(w, n.workers[w], n.errs.items, n.ctl.runner)
    {
      assert WorkerInv(w, s.workers[w], s.errs.items, s.ctl.runner);
      assert l.RecvErr? ==> (w in s.errs.items <==> w == s.errs.items[0] || w in n.errs.items);
    }
  }

  lemma ControlKeepsWorkers(workers: seq<Worker>, errs: seq<WorkerId>, rest: seq<WorkerId>, n: nat,
                            runner: RunnerPc, after: RunnerPc)
    requires WorkersInv(workers, errs, runner) && ErrsInv(errs, n, runner)
    requires rest == errs || (errs != [] && rest == errs[1..])
    requires after == runner || !after.Restarting?
    ensures WorkersInv(workers, rest, after) && ErrsInv(rest, n, after)
  {
    forall w: nat | w < |workers|
      ensures WorkerInv(w, workers[w], rest, after)
    {
      assert WorkerInv(w, workers[w], errs, runner);
      assert w in rest ==> w in errs;
    }
  }

  lemma OtherRunnerSteps(s: Pool, l: RunnerLabel)
    requires !l.RecvErr? && !l.Restart? && !l.SpawnWorker? && RunnerNext(s, l).Some?
    ensures var n := RunnerNext(s, l).value;
      n.workers == s.workers && n.errs == s.errs && !n.ctl.runner.Restarting?
  {
  }

  lemma SpawnKeepsWorkers(s: Pool)
    requires WorkersInv(s.workers, s.errs.items, s.ctl.runner) && ErrsInv(s.errs.items, |s.workers|, s.ctl.runner)
    requires s.ctl.runner.Spawning?
    ensures var workers := s.workers + [NewWorker()];
      WorkersInv(workers, s.errs.items, s.ctl.runner) && ErrsInv(s.errs.items, |workers|, s.ctl.runner)
  {
    var workers := s.workers + [NewWorker()];
    forall w: nat | w < |workers|
      ensures WorkerInv(w, workers[w], s.errs.items, s.ctl.runner)
    {
      assert w < |s.workers| ==> WorkerInv(w, s.workers[w], s.errs.items, s.ctl.runner);
    }
  }

  lemma RunnerKeepsWorkers(s: Pool, l: RunnerLabel)
    requires WorkersInv(s.workers, s.errs.items, s.ctl.runner) && ErrsInv(s.errs.items, |s.workers|, s.ctl.runner)
    requires RunnerNext(s, l).Some?
    ensures var n := RunnerNext(s, l).value;
      WorkersInv(n.workers, n.errs.items, n.ctl.runner) && ErrsInv(n.errs.items, |n.workers|, n.ctl.runner)
  {
    if l.RecvErr? || l.Restart? {
      RestartKeepsWorkers(s, l);
    } else if l.SpawnWorker? {
      SpawnKeepsWorkers(s);
    } else {
      OtherRunnerSteps(s, l);
      ControlKeepsWorkers(s.workers, s.errs.items, s.errs.items, |s.workers|, s.ctl.runner, RunnerNext(s, l).value.ctl.runner);
    }
  }

  lemma RunnerKeepsInv(s: Pool, l: RunnerLabel)
    requires Inv(s) && RunnerNext(s, l).Some?
    ensures Inv(RunnerNext(s, l).value)
  {
    var n := RunnerNext(s, l).value;
    RunnerKeepsCtl(s, l);
    RunnerKeepsWorkers(s, l);
    if l.SpawnWorker? {
      WorkerJoins(s.tasks, s.loc, s.workers, NewWorker());
    } else if l.Restart? {
      WorkerMoves(s.tasks, s.loc, s.workers, s.ctl.runner.w, n.workers[s.ctl.runner.w]);
    }
    ClientsCarryOver(s, n);
  }

  // ----- The clients -----

  /** The client's task changes as its progress does; the other clients' tasks are other tasks. */
  lemma ProgressKeepsOwners(s: Pool, n: Pool, c: ClientId, t: TaskId)
    requires ClientsInv(s) && c in s.clients && t in s.tasks
    requires s.clients[c].i < |s.clients[c].tasks| && s.clients[c].tasks[s.clients[c].i] == Some(t)
    requires n.cfg == s.cfg && n.clients.Keys == s.clients.Keys && n.wg.Keys == s.wg.Keys
    requires forall d :: d in s.clients && d != c ==> n.clients[d] == s.clients[d]
    requires n.clients[c].tasks == s.clients[c].tasks && ClientInv(n.clients[c])
    requires n.clients[c].i == s.clients[c].i || (n.clients[c].i == s.clients[c].i + 1 && n.clients[c].pc.Loop?)
    requires n.tasks.Keys == s.tasks.Keys && n.loc.Keys == s.loc.Keys
    requires forall x :: x in s.tasks && x != t ==>
      n.tasks[x].wg == s.tasks[x].wg && n.loc[x] == s.loc[x] && (x in n.added <==> x in s.added)
    requires t in n.loc && n.added <= n.tasks.Keys
    requires SlotInv(c, n.clients[c], s.clients[c].i, n.tasks[t].wg, n.loc[t].Fresh?, t in n.added)
    ensures ClientsInv(n)
  {
    assert OwnerInv(s, t);
    forall x | x in n.tasks
      ensures OwnerInv(n, x)
    {
      assert OwnerInv(s, x);
    }
  }

  /** The steps that touch the client alone. */
  predicate LocalAdd(l: ClientLabel) {
    l.TestPool? || l.AddReturns? || l.AddPanics?
  }

  lemma LocalAddKeepsProgress(s: Pool, c: ClientId, l: ClientLabel)
    requires ClientsInv(s) && ClientNext(s, c, l).Some? && LocalAdd(l)
    ensures ClientsInv(ClientNext(s, c, l).value)
  {
    var k := s.clients[c];
    var t := k.tasks[k.i].value;
    assert OwnerInv(s, t) && ClientInv(k);
    ProgressKeepsOwners(s, ClientNext(s, c, l).value, c, t);
  }

  lemma CountKeepsProgress(s: Pool, c: ClientId, l: ClientLabel)
    requires ClientsInv(s) && ClientNext(s, c, l).Some? && AddLabel(l) && !LocalAdd(l)
    ensures ClientsInv(ClientNext(s, c, l).value)
  {
    var k := s.clients[c];
    var t := k.tasks[k.i].value;
    assert OwnerInv(s, t) && ClientInv(k);
    ProgressKeepsOwners(s, ClientNext(s, c, l).value, c, t);
  }

  lemma AddKeepsProgress(s: Pool, c: ClientId, l: ClientLabel)
    requires ClientsInv(s) && ClientNext(s, c, l).Some?
    requires AddLabel(l)
    ensures ClientsInv(ClientNext(s, c, l).value)
  {
    if LocalAdd(l) {
      LocalAddKeepsProgress(s, c, l);
    } else {
      CountKeepsProgress(s, c, l);
    }
  }

  /** A step that changes the client's own progress only. */
  lemma WaitKeepsProgress(s: Pool, c: ClientId, k: Client)
    requires ClientsInv(s) && c in s.clients && k.tasks == s.clients[c].tasks && ClientInv(k)
    requires s.clients[c].pc.Loop? || s.clients[c].pc.Wait?
    requires k.i == s.clients[c].i
             || (k.i == s.clients[c].i + 1 && k.pc.Loop? && s.clients[c].tasks[s.clients[c].i].None?)
    requires !k.pc.Check? && !k.pc.AddWg? && !k.pc.Send? && !k.pc.Sent? && !k.pc.ReturnLate?
    ensures ClientsInv(s.(clients := s.clients[c := k]))
  {
    var n := s.(clients := s.clients[c := k]);
    forall t | t in n.tasks
      ensures OwnerInv(n, t)
    {
      assert OwnerInv(s, t);
    }
  }

  predicate AddLabel(l: ClientLabel) {
    l.AssignWg? || l.TestPool? || l.CountWg? || l.SendTask? || l.AddReturns? || l.AddPanics?
  }

  lemma WaitShape(s: Pool, c: ClientId, l: ClientLabel)
    requires c in s.clients && ClientInv(s.clients[c]) && !AddLabel(l) && ClientNext(s, c, l).Some?
    ensures c in ClientNext(s, c, l).value.clients
    ensures var n := ClientNext(s, c, l).value;
      var a, b := s.clients[c], n.clients[c];
      && n == s.(clients := s.clients[c := b]) && b.tasks == a.tasks && ClientInv(b) && (a.pc.Loop? || a.pc.Wait?)
      && (b.i == a.i || (b.i == a.i + 1 && b.pc.Loop? && a.tasks[a.i].None?))
      && !b.pc.Check? && !b.pc.AddWg? && !b.pc.Send? && !b.pc.Sent? && !b.pc.ReturnLate?
  {
  }

  lemma ClientKeepsProgress(s: Pool, c: ClientId, l: ClientLabel)
    requires ClientsInv(s) && ClientNext(s, c, l).Some?
    ensures ClientsInv(ClientNext(s, c, l).value)
  {
    if AddLabel(l) {
      AddKeepsProgress(s, c, l);
    } else {
      WaitShape(s, c, l);
      WaitKeepsProgress(s, c, ClientNext(s, c, l).value.clients[c]);
    }
  }

  lemma CountKeepsWg(s: Pool, n: Pool, c: ClientId, t: TaskId)
    requires WgInv(s.wg, s.tasks, s.added) && c in s.wg && t in s.tasks && t !in s.added
    requires s.tasks[t].wg == Some(c) && s.tasks[t].life.signals == 0
    requires n.tasks == s.tasks && n.added == s.added + {t} && n.wg == s.wg[c := s.wg[c] + 1]
    ensures WgInv(n.wg, n.tasks, n.added)
  {
    forall d | d in n.wg
      ensures n.wg[d] == |Outstanding(n.tasks, n.added, d)|
    {
      var before := Outstanding(s.tasks, s.added, d);
      assert Outstanding(n.tasks, n.added, d) == if d == c then before + {t} else before;
      assert t !in before;
    }
  }

  lemma ClientKeepsWg(s: Pool, c: ClientId, l: ClientLabel)
    requires ClientsInv(s) && TasksInv(s.tasks, s.loc, s.workers) && WgInv(s.wg, s.tasks, s.added)
    requires ClientNext(s, c, l).Some?
    ensures var n := ClientNext(s, c, l).value; WgInv(n.wg, n.tasks, n.added)
  {
    var n := ClientNext(s, c, l).value;
    if l.AssignWg? || l.CountWg? {
      var t := s.clients[c].tasks[s.clients[c].i].value;
      assert OwnerInv(s, t);
      assert PlaceInv(s.tasks[t], s.loc[t], s.workers) && L.TaskInv(s.tasks[t]);
      if l.AssignWg? {
        SameOutstanding(s.tasks, s.added, t, n.tasks[t], s.wg);
      } else {
        CountKeepsWg(s, n, c, t);
      }
    }
  }

  lemma SendKeepsPlaces(s: Pool, n: Pool, t: TaskId)
    requires QueueInv(s.queue.items, s.loc) && HoldInv(s.workers, s.loc) && TasksInv(s.tasks, s.loc, s.workers)
    requires t in s.tasks && s.loc[t] == Fresh
    requires n.workers == s.workers && n.tasks == s.tasks && n.loc == s.loc[t := Queued]
    requires n.queue.items == s.queue.items + [t]
    ensures QueueInv(n.queue.items, n.loc) && HoldInv(n.workers, n.loc) && TasksInv(n.tasks, n.loc, n.workers)
  {
    forall x | x in n.loc && n.loc[x] == Queued
      ensures x in n.queue.items
    {
      assert n.queue.items[|s.queue.items|] == t;
      assert x != t ==> x in s.queue.items;
    }
  }

  lemma ClientKeepsPlaces(s: Pool, c: ClientId, l: ClientLabel)
    requires QueueInv(s.queue.items, s.loc) && HoldInv(s.workers, s.loc) && TasksInv(s.tasks, s.loc, s.workers)
    requires ClientsInv(s) && ClientNext(s, c, l).Some?
    ensures var n := ClientNext(s, c, l).value;
      QueueInv(n.queue.items, n.loc) && HoldInv(n.workers, n.loc) && TasksInv(n.tasks, n.loc, n.workers)
  {
    var n := ClientNext(s, c, l).value;
    if l.AssignWg? || l.SendTask? {
      var t := s.clients[c].tasks[s.clients[c].i].value;
      assert OwnerInv(s, t) && PlaceInv(s.tasks[t], s.loc[t], s.workers);
      if l.AssignWg? {
        TaskMoves(s.tasks, s.loc, s.workers, t, n.tasks[t]);
      } else if !s.queue.closed {
        SendKeepsPlaces(s, n, t);
      }
    }
  }

  lemma ClientShape(s: Pool, c: ClientId, l: ClientLabel)
    requires ClientNext(s, c, l).Some?
    ensures var n := ClientNext(s, c, l).value;
      && n.cfg == s.cfg && n.ctl == s.ctl && n.workers == s.workers && n.errs == s.errs && n.queue.closed == s.queue.closed
  {
  }

  lemma ClientKeepsInv(s: Pool, c: ClientId, l: ClientLabel)
    requires Inv(s) && ClientNext(s, c, l).Some?
    ensures Inv(ClientNext(s, c, l).value)
  {
    ClientShape(s, c, l);
    ClientKeepsProgress(s, c, l);
    ClientKeepsWg(s, c, l);
    ClientKeepsPlaces(s, c, l);
  }
}
