/** How the parts of the pool invariant survive the update of one worker or one task. */
module PoolFrames {
  import T = Tasks
  import L = TaskLife
  import opened PoolMachine
  import opened PoolInvariant

  /** Holding the same task in the same stage of its process call. */
  predicate SamePlace(a: RunPc, b: RunPc) {
    HeldTask(a) == HeldTask(b) && a.Inside? == b.Inside? && a.After? == b.After?
  }

  lemma WorkerMoves(tasks: map<TaskId, T.Task>, loc: map<TaskId, Loc>, workers: seq<Worker>, w: WorkerId, k: Worker)
    requires w < |workers| && SamePlace(workers[w].pc, k.pc)
    requires HoldInv(workers, loc) && TasksInv(tasks, loc, workers)
    ensures HoldInv(workers[w := k], loc) && TasksInv(tasks, loc, workers[w := k])
  {
    var after := workers[w := k];
    forall t | t in tasks
      ensures PlaceInv(tasks[t], loc[t], after)
    {
      assert PlaceInv(tasks[t], loc[t], workers);
    }
  }

  lemma WorkerJoins(tasks: map<TaskId, T.Task>, loc: map<TaskId, Loc>, workers: seq<Worker>, k: Worker)
    requires HeldTask(k.pc).None?
    requires HoldInv(workers, loc) && TasksInv(tasks, loc, workers)
    ensures HoldInv(workers + [k], loc) && TasksInv(tasks, loc, workers + [k])
  {
    var after := workers + [k];
    assert forall w: nat :: w < |workers| ==> after[w] == workers[w];
    forall t | t in tasks
      ensures PlaceInv(tasks[t], loc[t], after)
    {
      assert PlaceInv(tasks[t], loc[t], workers);
    }
  }

  /** A task step that the pool cannot tell from no step. */
  predicate SameStage(t: T.Task, u: T.Task) {
    t.pc == u.pc && t.state == u.state && t.life.starts == u.life.starts
  }

  lemma TaskMoves(tasks: map<TaskId, T.Task>, loc: map<TaskId, Loc>, workers: seq<Worker>, t: TaskId, u: T.Task)
    requires t in tasks && TasksInv(tasks, loc, workers)
    requires L.TaskInv(u) && L.RecordInv(u) && PlaceInv(u, loc[t], workers)
    ensures TasksInv(tasks[t := u], loc, workers)
  {
  }

  lemma SameOutstanding(tasks: map<TaskId, T.Task>, added: set<TaskId>, t: TaskId, u: T.Task, wg: map<ClientId, int>)
    requires t in tasks && WgInv(wg, tasks, added)
    requires u.life.signals == tasks[t].life.signals && (u.wg == tasks[t].wg || t !in added)
    ensures WgInv(wg, tasks[t := u], added)
  {
    forall c | c in wg
      ensures wg[c] == |Outstanding(tasks[t := u], added, c)|
    {
      assert Outstanding(tasks[t := u], added, c) == Outstanding(tasks, added, c);
    }
  }

  /** A step of the handler goroutine, of the timer or of a Stop call keeps a task's stage. */
  lemma OutsideKeepsStage(t: T.Task, o: T.OutsideLabel)
    requires L.TaskInv(t) && L.RecordInv(t) && T.OutsideStep(t, o).Some?
    ensures var u := T.OutsideStep(t, o).value;
      L.TaskInv(u) && L.RecordInv(u) && SameStage(t, u) && u.wg == t.wg && u.life.signals == t.life.signals
  {
    L.StepKeepsInv(t, T.Outside(o));
    L.StepKeepsRecord(t, T.Outside(o));
  }

  /** Everything but the tasks and their claims is untouched by such a step. */
  lemma OutsideKeepsPool(s: Pool, t: TaskId, u: T.Task)
    requires t in s.tasks && TasksInv(s.tasks, s.loc, s.workers) && ClientsInv(s) && WgInv(s.wg, s.tasks, s.added)
    requires L.TaskInv(u) && L.RecordInv(u) && SameStage(s.tasks[t], u)
    requires u.wg == s.tasks[t].wg && u.life.signals == s.tasks[t].life.signals
    ensures var n := s.(tasks := s.tasks[t := u]);
      TasksInv(n.tasks, n.loc, n.workers) && ClientsInv(n) && WgInv(n.wg, n.tasks, n.added)
  {
    TaskMoves(s.tasks, s.loc, s.workers, t, u);
    SameOutstanding(s.tasks, s.added, t, u, s.wg);
    TaskKeepsClients(s, t, u);
  }

  lemma TaskKeepsClients(s: Pool, t: TaskId, u: T.Task)
    requires t in s.tasks && ClientsInv(s) && u.wg == s.tasks[t].wg
    ensures ClientsInv(s.(tasks := s.tasks[t := u]))
  {
    var n := s.(tasks := s.tasks[t := u]);
    forall x | x in n.tasks
      ensures OwnerInv(n, x)
    {
      assert OwnerInv(s, x);
    }
  }

  /** ClientsInv does not read the control, the queues or the workers. */
  predicate SameClients(s: Pool, n: Pool) {
    s.cfg == n.cfg && s.clients == n.clients && s.wg == n.wg && s.added == n.added
  }

  lemma ClientsCarryOver(s: Pool, n: Pool)
    requires ClientsInv(s) && SameClients(s, n) && n.tasks == s.tasks && n.loc.Keys == s.loc.Keys
    requires forall t :: t in s.loc ==> n.loc[t].Fresh? == s.loc[t].Fresh?
    ensures ClientsInv(n)
  {
    forall t | t in n.tasks
      ensures OwnerInv(n, t)
    {
      assert OwnerInv(s, t);
    }
  }
}
