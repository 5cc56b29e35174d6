/**
RunOnline of pkg/common/workerpool/pool.go: start the workers in one wait group,
fill the queue, close it, wait, and decide.  The workers are those of module
PoolMachine; a task is named by its position in the caller's list, and one
process call is one step here.  No Stop call and no closed parent context.
*/
module OnlinePool {
  import opened Options
  import opened Counting
  import opened PoolMachine

  datatype OnlinePc = Launching | Filling | Waiting | Decided(complete: bool)

  datatype Online = Online(
    concurrency: nat,
    tasks: seq<bool>,          // false for a nil entry
    pc: OnlinePc,
    filled: nat,
    queue: Fifo<TaskId>,
    errs: nat,                 // unread errors in workerErrCh
    workers: seq<Worker>,
    wg: int,
    // history
    taken: nat,                // list entries dequeued
    processed: multiset<TaskId>,
    lost: multiset<TaskId>     // dequeued, then a panic before process
  )

  datatype Step =
    | Spawn | StartFill | Fill | CloseQueue | Decide
    | Local(w: nat, l: WorkerLabel)
    | Take(w: nat) | Lose(w: nat) | Process(w: nat) | Clear(w: nat)
    | Report(w: nat) | Leave(w: nat)

  predicate LocalLabel(l: WorkerLabel) {
    || l.TryRun? || l.TestState? || l.CreateStop? || l.GoReceive? || l.SeeClosed? || l.SetWorking?
    || l.MetricsDone? || l.MetricsPanic? || l.MarkRecover? || l.MarkTerminated?
  }

  function Next(s: Online, step: Step): Option<Online> {
    match step
    case Spawn =>
      if s.pc.Launching? && |s.workers| < s.concurrency then
        Some(s.(workers := s.workers + [NewWorker()], wg := s.wg + 1))
      else None
    case StartFill => if s.pc.Launching? && |s.workers| >= s.concurrency then Some(s.(pc := Filling)) else None
    case Fill =>
      if s.pc.Filling? && s.filled < |s.tasks| && |s.queue.items| < |s.tasks| then
        Some(s.(filled := s.filled + 1, queue := s.queue.(items := s.queue.items + [s.filled])))
      else None
    case CloseQueue =>
      if s.pc.Filling? && s.filled >= |s.tasks| then Some(s.(pc := Waiting, queue := s.queue.(closed := true))) else None
    case Decide =>
      if s.pc.Waiting? && s.wg == 0 then Some(s.(pc := Decided(s.queue.items == []))) else None
    case Local(w, l) =>
      if w >= |s.workers| || !LocalLabel(l) then None
      else (match LocalNext(true, s.queue, s.workers[w], l)
            case None => None
            case Some(k) => Some(s.(workers := s.workers[w := k])))
    case _ => WorkerStep(s, step)
  }

  function WorkerStep(s: Online, step: Step): Option<Online>
    requires step.Take? || step.Lose? || step.Process? || step.Clear? || step.Report? || step.Leave?
  {
    if step.w >= |s.workers| then None
    else
      var w := step.w;
      var k := s.workers[w];
      match step
      case Take(_) =>
        if !k.pc.Receive? || s.queue.items == [] then None
        else
          var t := s.queue.items[0];
          var rest := s.(queue := s.queue.(items := s.queue.items[1..]), taken := s.taken + 1);
          if 0 <= t < |s.tasks| && s.tasks[t] then Some(rest.(workers := s.workers[w := k.(pc := Got(t))]))
          else Some(rest.(workers := s.workers[w := k.(pc := Top)]))
      case Lose(_) =>
        if k.pc.Got? then Some(s.(workers := s.workers[w := k.(pc := Panicking)], lost := s.lost + multiset{k.pc.t})) else None
      case Process(_) =>
        if k.pc.Entering? then
          Some(s.(workers := s.workers[w := k.(pc := After(k.pc.t))], processed := s.processed + multiset{k.pc.t}))
        else None
      case Clear(_) =>
        if k.pc.After? then Some(s.(workers := s.workers[w := k.(task := None, state := Idle, pc := Metrics)])) else None
      case Report(_) =>
        if k.pc.Reporting? && s.errs < s.concurrency then
          Some(s.(workers := s.workers[w := k.(pc := Releasing)], errs := s.errs + 1))
        else None
      case Leave(_) =>
        if k.pc.Releasing? then Some(s.(workers := s.workers[w := k.(pc := NotRunning)], wg := s.wg - 1)) else None
  }

  function Run(s: Online, steps: seq<Step>): Option<Online>
    decreases |steps|
  {
    if steps == [] then Some(s)
    else match Next(s, steps[0])
      case None => None
      case Some(next) => Run(next, steps[1..])
  }

  function Start(concurrency: nat, tasks: seq<bool>): Online {
    Online(concurrency, tasks, Launching, 0, Fifo([], false), 0, [], 0, 0, multiset{}, multiset{})
  }

  // ----- The invariant -----

  /** The worker's only run call has returned. */
  predicate Left(k: Worker) {
    k.pc.NotRunning? && k.spawned == 0
  }

  predicate EndedByQueue(state: WorkerState) {
    state.TerminatingQueue? || state.Terminated?
  }

  predicate WorkerOk(k: Worker) {
    && k.failing == 0 && k.spawned <= 1 && (k.spawned == 1 ==> k.pc.NotRunning? && k.state.WorkerNew?)
    && (k.pc.NotRunning? && k.spawned == 0 ==> k.state.WorkerRecoverErr? || k.state.Terminated?)
    && (k.pc.CheckRun? ==> k.state.WorkerNew?) && !k.pc.BadState? && !k.pc.Inside?
    && (k.pc.Reporting? ==> k.state.WorkerRecoverErr?)
    && (k.pc.MakeStop? || k.pc.Top? || k.pc.Receive? || k.pc.Got? || k.pc.Metrics? ==> k.state.Idle? && k.task.None?)
    && (k.pc.CheckRun? || k.spawned == 1 ==> k.task.None?)
    && (k.pc.Terminating? ==> k.state.TerminatingQueue?)
    && (k.pc.Releasing? ==> k.state.WorkerRecoverErr? || k.state.Terminated?)
    && (EndedByQueue(k.state) ==> k.pc.Terminating? || k.pc.Releasing? || k.pc.NotRunning?)
    && (k.state.WorkerRecoverErr? ==> k.pc.Reporting? || k.pc.Releasing? || k.pc.NotRunning?)
  }

  predicate InHand(k: Worker, t: TaskId) {
    (k.pc.Got? || k.pc.Entering?) && k.pc.t == t
  }

  ghost predicate WorkersInv(s: Online) {
    && (forall w: nat :: w < |s.workers| ==> WorkerOk(s.workers[w]))
    && (forall w: nat :: w < |s.workers| && EndedByQueue(s.workers[w].state) ==>
          s.queue.closed && s.queue.items == [])
  }

  ghost predicate QueueInv(s: Online) {
    && s.taken + |s.queue.items| == s.filled <= |s.tasks|
    && (forall i: nat :: i < |s.queue.items| ==> s.queue.items[i] == s.taken + i)
    && (s.queue.closed <==> s.pc.Waiting? || s.pc.Decided?)
    && (s.queue.closed ==> s.filled == |s.tasks|)
  }

  /** Every entry dequeued that is not nil is in a worker's hand, processed, or lost. */
  ghost predicate TakenInv(s: Online) {
    forall t: nat :: t < s.taken && t < |s.tasks| && s.tasks[t] ==>
      t in s.processed || t in s.lost || exists w: nat :: w < |s.workers| && InHand(s.workers[w], t)
  }

  function Remaining(workers: seq<Worker>): set<nat> {
    set w: nat | w < |workers| && !Left(workers[w])
  }

  function Reported(workers: seq<Worker>): set<nat> {
    set w: nat | w < |workers| && workers[w].state.WorkerRecoverErr? && !workers[w].pc.Reporting?
  }

  ghost predicate CountInv(s: Online) {
    && |s.workers| <= s.concurrency
    && s.wg == |Remaining(s.workers)|
    && s.errs == |Reported(s.workers)|
  }

  /** The queue is filled after all workers were launched. */
  predicate StageInv(s: Online) {
    && (s.pc.Launching? ==> s.filled == 0)
    && (!s.pc.Launching? ==> |s.workers| == s.concurrency)
  }

  ghost predicate Inv(s: Online) {
    WorkersInv(s) && QueueInv(s) && TakenInv(s) && CountInv(s) && StageInv(s)
  }

  // ----- Steps -----

  lemma LocalKeepsWorker(queue: Fifo<TaskId>, k: Worker, l: WorkerLabel)
    requires WorkerOk(k) && LocalLabel(l) && LocalNext(true, queue, k, l).Some?
    ensures var u := LocalNext(true, queue, k, l).value;
      && WorkerOk(u) && (forall t :: InHand(k, t) ==> InHand(u, t))
      && (EndedByQueue(u.state) ==> EndedByQueue(k.state) || (queue.closed && queue.items == []))
      && !Left(k) && !Left(u)
      && (u.state.WorkerRecoverErr? && !u.pc.Reporting? <==> k.state.WorkerRecoverErr? && !k.pc.Reporting?)
  {
  }

  /** The counts do not change when a worker neither leaves nor reports. */
  lemma SameCounts(workers: seq<Worker>, w: nat, u: Worker)
    requires w < |workers| && Left(u) == Left(workers[w])
    requires (u.state.WorkerRecoverErr? && !u.pc.Reporting?)
             == (workers[w].state.WorkerRecoverErr? && !workers[w].pc.Reporting?)
    ensures Remaining(workers[w := u]) == Remaining(workers) && Reported(workers[w := u]) == Reported(workers)
  {
  }

  lemma LocalKeepsInv(s: Online, w: nat, l: WorkerLabel)
    requires Inv(s) && Next(s, Local(w, l)).Some?
    ensures Inv(Next(s, Local(w, l)).value)
  {
    var n := Next(s, Local(w, l)).value;
    LocalKeepsWorker(s.queue, s.workers[w], l);
    SameCounts(s.workers, w, n.workers[w]);
    HandsKept(s, n, w);
  }

  lemma HandsKept(s: Online, n: Online, w: nat)
    requires TakenInv(s) && w < |s.workers| == |n.workers| && n.workers == s.workers[w := n.workers[w]]
    requires n.taken == s.taken && n.tasks == s.tasks && s.processed <= n.processed && s.lost <= n.lost
    requires forall t: nat :: InHand(s.workers[w], t) ==> InHand(n.workers[w], t) || t in n.processed || t in n.lost
    ensures TakenInv(n)
  {
    forall t: nat | t < n.taken && t < |n.tasks| && n.tasks[t] && t !in n.processed && t !in n.lost
      ensures exists v: nat :: v < |n.workers| && InHand(n.workers[v], t)
    {
      var v: nat :| v < |s.workers| && InHand(s.workers[v], t);
      assert InHand(n.workers[v], t);
    }
  }

  lemma TakeKeepsInv(s: Online, w: nat)
    requires Inv(s) && Next(s, Take(w)).Some?
    ensures Inv(Next(s, Take(w)).value)
  {
    var n := Next(s, Take(w)).value;
    assert WorkerOk(s.workers[w]);
    SameCounts(s.workers, w, n.workers[w]);
    assert s.queue.items[0] == s.taken;
    forall t: nat | t < n.taken && t < |n.tasks| && n.tasks[t] && t !in n.processed && t !in n.lost
      ensures exists v: nat :: v < |n.workers| && InHand(n.workers[v], t)
    {
      if t == s.taken {
        assert InHand(n.workers[w], t);
      } else {
        var v: nat :| v < |s.workers| && InHand(s.workers[v], t);
        assert InHand(n.workers[v], t);
      }
    }
  }

  lemma TaskKeepsInv(s: Online, step: Step)
    requires Inv(s) && (step.Lose? || step.Process? || step.Clear?) && Next(s, step).Some?
    ensures Inv(Next(s, step).value)
  {
    var n := Next(s, step).value;
    var w := step.w;
    assert WorkerOk(s.workers[w]);
    SameCounts(s.workers, w, n.workers[w]);
    HandsKept(s, n, w);
  }

  lemma LeaveKeepsInv(s: Online, w: nat)
    requires Inv(s) && Next(s, Leave(w)).Some?
    ensures Inv(Next(s, Leave(w)).value)
  {
    var n := Next(s, Leave(w)).value;
    assert WorkerOk(s.workers[w]);
    assert Remaining(n.workers) == Remaining(s.workers) - {w};
    assert w in Remaining(s.workers);
    assert Reported(n.workers) == Reported(s.workers);
    HandsKept(s, n, w);
  }

  lemma ReportKeepsInv(s: Online, w: nat)
    requires Inv(s) && Next(s, Report(w)).Some?
    ensures Inv(Next(s, Report(w)).value)
  {
    var n := Next(s, Report(w)).value;
    assert WorkerOk(s.workers[w]);
    assert Reported(n.workers) == Reported(s.workers) + {w};
    assert w !in Reported(s.workers);
    assert Remaining(n.workers) == Remaining(s.workers);
    HandsKept(s, n, w);
  }

  lemma SpawnKeepsInv(s: Online)
    requires Inv(s) && Next(s, Spawn).Some?
    ensures Inv(Next(s, Spawn).value)
  {
    var n := Next(s, Spawn).value;
    assert Remaining(n.workers) == Remaining(s.workers) + {|s.workers|};
    assert Reported(n.workers) == Reported(s.workers);
  }

  lemma NextKeepsInv(s: Online, step: Step)
    requires Inv(s) && Next(s, step).Some?
    ensures Inv(Next(s, step).value)
  {
    match step
    case Local(w, l) => LocalKeepsInv(s, w, l);
    case Take(w) => TakeKeepsInv(s, w);
    case Leave(w) => LeaveKeepsInv(s, w);
    case Report(w) => ReportKeepsInv(s, w);
    case Spawn => SpawnKeepsInv(s);
    case Lose(_) => TaskKeepsInv(s, step);
    case Process(_) => TaskKeepsInv(s, step);
    case Clear(_) => TaskKeepsInv(s, step);
    case _ =>
  }

  lemma {:induction false} RunKeepsInv(s: Online, steps: seq<Step>)
    requires Inv(s) && Run(s, steps).Some?
    ensures Inv(Run(s, steps).value)
    decreases |steps|
  {
    if steps != [] {
      NextKeepsInv(s, steps[0]);
      RunKeepsInv(Next(s, steps[0]).value, steps[1..]);
    }
  }

  // ----- Each entry once -----

  function Hand(k: Worker): Option<TaskId> {
    if k.pc.Got? || k.pc.Entering? then Some(k.pc.t) else None
  }

  predicate RealEntry(s: Online, t: TaskId) {
    0 <= t < s.taken && t < |s.tasks| && s.tasks[t]
  }

  /** Only entries that were dequeued and are not nil are in hand, in one hand, or done with, once. */
  ghost predicate OnceInv(s: Online) {
    && (forall w: nat :: w < |s.workers| && Hand(s.workers[w]).Some? ==> InOneHand(s, w))
    && (forall t: TaskId :: s.processed[t] + s.lost[t] <= 1)
    && (forall t: TaskId :: s.processed[t] + s.lost[t] == 1 ==> RealEntry(s, t))
  }

  ghost predicate InOneHand(s: Online, w: nat)
    requires w < |s.workers| && Hand(s.workers[w]).Some?
  {
    var t := Hand(s.workers[w]).value;
    && RealEntry(s, t) && s.processed[t] + s.lost[t] == 0
    && forall v: nat :: v < |s.workers| && v != w ==> Hand(s.workers[v]) != Some(t)
  }

  /** No hand changes. */
  ghost predicate SameHands(s: Online, n: Online) {
    && |s.workers| <= |n.workers| && n.tasks == s.tasks && n.taken == s.taken && n.processed == s.processed && n.lost == s.lost
    && (forall w: nat :: w < |s.workers| ==> Hand(n.workers[w]) == Hand(s.workers[w]))
    && (forall w: nat :: |s.workers| <= w < |n.workers| ==> Hand(n.workers[w]).None?)
  }

  lemma SameHandsKeepOnce(s: Online, n: Online)
    requires OnceInv(s) && SameHands(s, n)
    ensures OnceInv(n)
  {
    forall w: nat | w < |n.workers| && Hand(n.workers[w]).Some?
      ensures InOneHand(n, w)
    {
      assert InOneHand(s, w);
    }
  }

  lemma LocalKeepsHand(queue: Fifo<TaskId>, k: Worker, l: WorkerLabel)
    requires LocalLabel(l) && LocalNext(true, queue, k, l).Some?
    ensures Hand(LocalNext(true, queue, k, l).value) == Hand(k)
  {
  }

  /** The entry about to be dequeued is in no hand and not done with. */
  lemma NextEntryIsNew(s: Online)
    requires OnceInv(s)
    ensures s.processed[s.taken] + s.lost[s.taken] == 0
    ensures forall u: nat :: u < |s.workers| ==> Hand(s.workers[u]) != Some(s.taken)
  {
    assert !RealEntry(s, s.taken);
    forall u: nat | u < |s.workers|
      ensures Hand(s.workers[u]) != Some(s.taken)
    {
      assert Hand(s.workers[u]).Some? ==> InOneHand(s, u);
    }
  }

  lemma TakeKeepsOnce(s: Online, w: nat)
    requires Inv(s) && OnceInv(s) && Next(s, Take(w)).Some?
    ensures OnceInv(Next(s, Take(w)).value)
  {
    TakeKeepsHands(s, w);
  }

  /** Dequeuing: the entry is new. */
  lemma TakeKeepsHands(s: Online, w: nat)
    requires Inv(s) && OnceInv(s) && Next(s, Take(w)).Some?
    ensures var n := Next(s, Take(w)).value;
      && n.processed == s.processed && n.lost == s.lost && n.tasks == s.tasks
      && forall v: nat :: v < |n.workers| && Hand(n.workers[v]).Some? ==> InOneHand(n, v)
  {
    var n := Next(s, Take(w)).value;
    assert s.queue.items[0] == s.taken;
    NextEntryIsNew(s);
    forall v: nat | v < |n.workers| && Hand(n.workers[v]).Some?
      ensures InOneHand(n, v)
    {
      assert v != w ==> InOneHand(s, v);
    }
  }

  /** The hand is emptied, and the entry is done with. */
  lemma DropKeepsOnce(s: Online, step: Step)
    requires OnceInv(s) && (step.Lose? || step.Process?) && Next(s, step).Some?
    ensures OnceInv(Next(s, step).value)
  {
    var n := Next(s, step).value;
    assert InOneHand(s, step.w);
    forall v: nat | v < |n.workers| && Hand(n.workers[v]).Some?
      ensures InOneHand(n, v)
    {
      assert InOneHand(s, v);
    }
  }

  lemma NextKeepsOnce(s: Online, step: Step)
    requires Inv(s) && OnceInv(s) && Next(s, step).Some?
    ensures OnceInv(Next(s, step).value)
  {
    match step
    case Take(w) => TakeKeepsOnce(s, w);
    case Lose(_) => DropKeepsOnce(s, step);
    case Process(_) => DropKeepsOnce(s, step);
    case Local(w, l) =>
      LocalKeepsHand(s.queue, s.workers[w], l);
      SameHandsKeepOnce(s, Next(s, step).value);
    case _ => SameHandsKeepOnce(s, Next(s, step).value);
  }

  lemma {:induction false} RunKeepsOnce(s: Online, steps: seq<Step>)
    requires Inv(s) && OnceInv(s) && Run(s, steps).Some?
    ensures OnceInv(Run(s, steps).value)
    decreases |steps|
  {
    if steps != [] {
      NextKeepsInv(s, steps[0]);
      NextKeepsOnce(s, steps[0]);
      RunKeepsOnce(Next(s, steps[0]).value, steps[1..]);
    }
  }

  // ----- The guarantees -----

  ghost predicate Reachable(s: Online) {
    exists n: nat, tasks: seq<bool>, steps: seq<Step> :: Run(Start(n, tasks), steps) == Some(s)
  }

  lemma ReachableHasInv(s: Online)
    requires Reachable(s)
    ensures Inv(s) && OnceInv(s)
  {
    var n: nat, tasks: seq<bool>, steps: seq<Step> :| Run(Start(n, tasks), steps) == Some(s);
    assert Remaining([]) == {} && Reported([]) == {};
    RunKeepsInv(Start(n, tasks), steps);
    RunKeepsOnce(Start(n, tasks), steps);
  }

  lemma AllHaveLeft(s: Online)
    requires Inv(s) && s.wg == 0
    ensures forall w: nat :: w < |s.workers| ==> Left(s.workers[w]) && WorkerOk(s.workers[w])
  {
    forall w: nat | w < |s.workers|
      ensures Left(s.workers[w]) && WorkerOk(s.workers[w])
    {
      assert w !in Remaining(s.workers);
    }
  }

  /** RunOnline decides ONLINE_DONE exactly when every entry of the list was dequeued; it decides
      INCOMPLETE_DONE exactly when entries are left and every worker ended by a panic.  Of the entries
      dequeued, each that is not nil was processed once or lost once to such a panic, and no other was. */
  lemma OnlineDecision(s: Online)
    requires Reachable(s) && Next(s, Decide).Some?
    ensures var complete := Next(s, Decide).value.pc.complete;
      && (complete <==> s.taken == |s.tasks|)
      && (!complete <==> s.taken < |s.tasks|
                         && forall w: nat :: w < |s.workers| ==> s.workers[w].state.WorkerRecoverErr?)
    ensures |s.workers| == s.concurrency
    ensures forall t: nat :: s.processed[t] + s.lost[t] == if t < s.taken && t < |s.tasks| && s.tasks[t] then 1 else 0
  {
    ReachableHasInv(s);
    AllHaveLeft(s);
  }

  /** The channel has room for the whole list, and a decision is final. */
  lemma OnlineFillNeverBlocks(s: Online, step: Step)
    requires Reachable(s)
    ensures s.pc.Filling? && s.filled < |s.tasks| ==> Next(s, Fill).Some?
    ensures s.pc.Decided? && Next(s, step).Some? ==> Next(s, step).value.pc == s.pc
  {
    ReachableHasInv(s);
  }

  /** A worker's error report never blocks although nobody reads the channel. */
  lemma OnlineReportsNeverBlock(s: Online, w: nat)
    requires Reachable(s) && w < |s.workers| && s.workers[w].pc.Reporting?
    ensures Next(s, Report(w)).Some?
  {
    ReachableHasInv(s);
    assert w !in Reported(s.workers);
    BoundedSize(Reported(s.workers) + {w}, |s.workers|);
  }

  // ----- A decision can always be reached -----

  function PcRank(pc: RunPc): nat {
    match pc
    case NotRunning => 0
    case CheckRun => 20
    case MakeStop => 19
    case Top => 18
    case Receive => 17
    case Got(_) => 23
    case Entering(_) => 22
    case After(_) => 21
    case Metrics => 20
    case Panicking => 10
    case Reporting => 9
    case Terminating => 8
    case Releasing => 7
    case _ => 0
  }

  function WorkerRank(k: Worker): nat {
    30 * k.spawned + PcRank(k.pc)
  }

  function Sum(workers: seq<Worker>): nat {
    if workers == [] then 0 else WorkerRank(workers[0]) + Sum(workers[1..])
  }

  lemma {:induction false} SumChanges(workers: seq<Worker>, w: nat, u: Worker)
    requires w < |workers|
    ensures Sum(workers[w := u]) + WorkerRank(workers[w]) == Sum(workers) + WorkerRank(u)
    decreases |workers|
  {
    var after := workers[w := u];
    if w == 0 {
      assert after[1..] == workers[1..];
    } else {
      assert after[1..] == workers[1..][w - 1 := u];
      SumChanges(workers[1..], w - 1, u);
    }
  }

  lemma {:induction false} SumGrows(workers: seq<Worker>, u: Worker)
    ensures Sum(workers + [u]) == Sum(workers) + WorkerRank(u)
  {
    if workers == [] {
      assert [] + [u] == [u] && [u][1..] == [];
    } else {
      assert (workers + [u])[1..] == workers[1..] + [u];
      SumGrows(workers[1..], u);
    }
  }

  function Todo(s: Online): nat {
    match s.pc
    case Launching => 50 * Missing(s) + 20 * |s.tasks| + 3
    case Filling => (if s.filled < |s.tasks| then 20 * (|s.tasks| - s.filled) else 0) + 2
    case Waiting => 1
    case Decided(_) => 0
  }

  function Missing(s: Online): nat {
    if |s.workers| < s.concurrency then s.concurrency - |s.workers| else 0
  }

  function Distance(s: Online): nat {
    Todo(s) + Sum(s.workers) + 10 * |s.queue.items|
  }

  /** The next step of a worker whose run call has not returned, once the queue is closed. */
  function WorkerStepOf(s: Online, w: nat): Step
    requires w < |s.workers|
  {
    match s.workers[w].pc
    case NotRunning => Local(w, TryRun)
    case CheckRun => Local(w, TestState)
    case MakeStop => Local(w, CreateStop)
    case Top => Local(w, GoReceive)
    case Receive => if s.queue.items != [] then Take(w) else Local(w, SeeClosed)
    case Got(_) => Local(w, SetWorking)
    case Entering(_) => Process(w)
    case After(_) => Clear(w)
    case Metrics => Local(w, MetricsDone)
    case Panicking => Local(w, MarkRecover)
    case Reporting => Report(w)
    case Terminating => Local(w, MarkTerminated)
    case _ => Leave(w)
  }

  /** No stop channel is ever signalled here. */
  ghost predicate Unsignalled(s: Online) {
    forall w: nat :: w < |s.workers| && s.workers[w].stop.Some? ==>
      s.workers[w].stop.value.buffered == 0 && !s.workers[w].stop.value.closed
  }

  lemma StepKeepsUnsignalled(s: Online, step: Step)
    requires Unsignalled(s) && Next(s, step).Some?
    ensures Unsignalled(Next(s, step).value)
  {
  }

  lemma {:induction false} RunKeepsUnsignalled(s: Online, steps: seq<Step>)
    requires Unsignalled(s) && Run(s, steps).Some?
    ensures Unsignalled(Run(s, steps).value)
    decreases |steps|
  {
    if steps != [] {
      StepKeepsUnsignalled(s, steps[0]);
      RunKeepsUnsignalled(Next(s, steps[0]).value, steps[1..]);
    }
  }

  lemma LocalGoesOn(s: Online, w: nat)
    requires Inv(s) && Unsignalled(s) && s.pc.Waiting? && w < |s.workers| && !Left(s.workers[w]) && WorkerStepOf(s, w).Local?
    ensures Next(s, WorkerStepOf(s, w)).Some?
    ensures var n := Next(s, WorkerStepOf(s, w)).value;
      n == s.(workers := s.workers[w := n.workers[w]]) && |n.workers| == |s.workers| && WorkerRank(n.workers[w]) < WorkerRank(s.workers[w])
  {
    assert WorkerOk(s.workers[w]);
  }

  lemma ReportGoesOn(s: Online, w: nat)
    requires Inv(s) && w < |s.workers| && s.workers[w].pc.Reporting?
    ensures Next(s, Report(w)).Some?
  {
    assert w !in Reported(s.workers);
    BoundedSize(Reported(s.workers) + {w}, |s.workers|);
  }

  lemma OtherGoesOn(s: Online, w: nat)
    requires Inv(s) && s.pc.Waiting? && w < |s.workers| && !Left(s.workers[w]) && !WorkerStepOf(s, w).Local?
    ensures Next(s, WorkerStepOf(s, w)).Some?
    ensures var n := Next(s, WorkerStepOf(s, w)).value;
      && n.pc == s.pc && n.workers == s.workers[w := n.workers[w]] && |n.workers| == |s.workers|
      && WorkerRank(n.workers[w]) + 10 * |n.queue.items| < WorkerRank(s.workers[w]) + 10 * |s.queue.items|
  {
    assert WorkerOk(s.workers[w]);
    if s.workers[w].pc.Reporting? {
      ReportGoesOn(s, w);
    }
  }

  lemma WorkerGoesOn(s: Online, w: nat)
    requires Inv(s) && Unsignalled(s) && s.pc.Waiting? && w < |s.workers| && !Left(s.workers[w])
    ensures Next(s, WorkerStepOf(s, w)).Some?
    ensures Distance(Next(s, WorkerStepOf(s, w)).value) < Distance(s)
  {
    if WorkerStepOf(s, w).Local? {
      LocalGoesOn(s, w);
    } else {
      OtherGoesOn(s, w);
    }
    SumChanges(s.workers, w, Next(s, WorkerStepOf(s, w)).value.workers[w]);
  }

  lemma CallerGoesOn(s: Online) returns (step: Step)
    requires Inv(s) && (s.pc.Launching? || s.pc.Filling?)
    ensures Next(s, step).Some? && Distance(Next(s, step).value) < Distance(s)
  {
    if s.pc.Launching? {
      step := if |s.workers| < s.concurrency then Spawn else StartFill;
      if step.Spawn? {
        SumGrows(s.workers, NewWorker());
      }
    } else {
      step := if s.filled < |s.tasks| then Fill else Step.CloseQueue;
    }
  }

  lemma Progress(s: Online) returns (step: Step)
    requires Inv(s) && Unsignalled(s) && !s.pc.Decided?
    ensures Next(s, step).Some? && Distance(Next(s, step).value) < Distance(s)
  {
    if s.pc.Launching? || s.pc.Filling? {
      step := CallerGoesOn(s);
    } else if w: nat :| w < |s.workers| && !Left(s.workers[w]) {
      WorkerGoesOn(s, w);
      step := WorkerStepOf(s, w);
    } else {
      assert Remaining(s.workers) == {};
      step := Decide;
    }
  }

  lemma {:induction false} DecideFrom(s: Online) returns (n: Online, steps: seq<Step>)
    requires Inv(s) && Unsignalled(s)
    ensures Run(s, steps) == Some(n) && n.pc.Decided?
    decreases Distance(s)
  {
    if s.pc.Decided? {
      n, steps := s, [];
    } else {
      var step := Progress(s);
      NextKeepsInv(s, step);
      StepKeepsUnsignalled(s, step);
      n, steps := DecideFrom(Next(s, step).value);
      steps := [step] + steps;
    }
  }

  /** From every state, whatever panics have happened, RunOnline can come to its decision. */
  lemma OnlineCanAlwaysDecide(s: Online) returns (n: Online, steps: seq<Step>)
    requires Reachable(s)
    ensures Run(s, steps) == Some(n) && n.pc.Decided?
  {
    ReachableHasInv(s);
    var c: nat, tasks: seq<bool>, before: seq<Step> :| Run(Start(c, tasks), before) == Some(s);
    RunKeepsUnsignalled(Start(c, tasks), before);
    n, steps := DecideFrom(s);
  }
}
