/**
RunTasksGroupCh of pkg/common/workerpoolservice: the caller that adds the tasks
and waits, the collector goroutine that turns completion messages into wg.Done,
and the tasks, each of which sends at most one message (module PoolTheorems,
SingleExecution).  Any interleaving, any timer and any context closure.
*/
module ChannelGroup {
  import opened Options
  import opened Counting

  datatype MainPc =
    | Loop
    | Adding             // wgCnt and wg counted, inside AddTask
    | Added              // the task is in the pool's queue
    | Waiting            // collector started, in wg.Wait
    | Returning | Returned

  datatype CollectorPc =
    | NotStarted
    | Select
    | Message            // a message was received
    | Counting           // wg.Done called, doneCnt++ to come
    | Release            // the loop after a timeout or a closed context
    | ReleaseCounting
    | Ended

  datatype Group = Group(
    tasks: seq<bool>,        // false for a nil entry; doneCh has one place for each
    i: nat,
    main: MainPc,
    wgCnt: nat,
    wg: int,
    buffered: nat,           // messages in doneCh
    closed: bool,
    collector: CollectorPc,
    doneCnt: nat,
    err: bool,               // the named result is not nil
    pending: set<nat>,       // accepted tasks that have not sent their message
    // history
    accepted: set<nat>,
    sent: nat,               // messages sent
    received: nat,           // messages received
    refused: nat             // sends that panicked on the closed channel
  )

  datatype Label =
    | SkipNil | TotalTimeout | Count | AddFails | Enqueue | AddReturns | AddFailsLate | StartCollector | SeeZero | CloseDone
    | Complete(j: nat)
    | Receive | Done | CountDone | Surplus | SeeClosed
    | Interrupt              // timer fired or context closed
    | ReleaseOne | ReleaseCount | ReleaseEnd

  function Next(s: Group, l: Label): Option<Group> {
    if l.SkipNil? || l.TotalTimeout? || l.Count? || l.AddFails? || l.Enqueue? || l.AddReturns? || l.AddFailsLate?
       || l.StartCollector? || l.SeeZero? || l.CloseDone?
    then MainNext(s, l)
    else if l.Complete? then CompleteNext(s, l.j)
    else CollectorNext(s, l)
  }

  function MainNext(s: Group, l: Label): Option<Group> {
    match l
    case SkipNil => if s.main.Loop? && s.i < |s.tasks| && !s.tasks[s.i] then Some(s.(i := s.i + 1)) else None
    case TotalTimeout =>
      if s.main.Loop? && s.i < |s.tasks| && s.tasks[s.i] then Some(s.(main := Returning, err := true)) else None
    case Count =>
      if s.main.Loop? && s.i < |s.tasks| && s.tasks[s.i] then
        Some(s.(main := Adding, wgCnt := s.wgCnt + 1, wg := s.wg + 1))
      else None
    case AddFails => if s.main.Adding? then Some(s.(main := Returning, err := true)) else None
    case Enqueue =>
      if s.main.Adding? then Some(s.(main := Added, pending := s.pending + {s.i}, accepted := s.accepted + {s.i}))
      else None
    case AddFailsLate => if s.main.Added? then Some(s.(main := Returning, err := true)) else None   // a panic after the send
    case AddReturns => if s.main.Added? then Some(s.(main := Loop, i := s.i + 1)) else None
    case StartCollector =>
      if s.main.Loop? && s.i >= |s.tasks| then Some(s.(main := Waiting, collector := Select)) else None
    case SeeZero => if s.main.Waiting? && s.wg == 0 then Some(s.(main := Returning)) else None
    case CloseDone => if s.main.Returning? then Some(s.(main := Returned, closed := true)) else None
    case _ => None
  }

  /** A task's completion message: blocked on a full channel, a recovered panic on a closed one. */
  function CompleteNext(s: Group, j: nat): Option<Group> {
    if j !in s.pending then None
    else if s.closed then Some(s.(pending := s.pending - {j}, refused := s.refused + 1))
    else if s.buffered >= |s.tasks| then None
    else Some(s.(pending := s.pending - {j}, sent := s.sent + 1, buffered := s.buffered + 1))
  }

  function CollectorNext(s: Group, l: Label): Option<Group> {
    match l
    case Receive =>
      if s.collector.Select? && s.buffered > 0 then
        Some(s.(collector := Message, buffered := s.buffered - 1, received := s.received + 1))
      else None
    case Done =>
      if s.collector.Message? && s.doneCnt < s.wgCnt then Some(s.(collector := Counting, wg := s.wg - 1)) else None
    case CountDone =>
      if s.collector.Counting? then Some(s.(collector := Select, doneCnt := s.doneCnt + 1)) else None
    case Surplus =>
      if s.collector.Message? && s.doneCnt >= s.wgCnt then
        Some(s.(collector := Ended, doneCnt := s.doneCnt + 1, err := true))
      else None
    case SeeClosed =>
      if s.collector.Select? && s.buffered == 0 && s.closed then Some(s.(collector := Ended)) else None
    case Interrupt => if s.collector.Select? then Some(s.(collector := Release, err := true)) else None
    case ReleaseOne =>
      if s.collector.Release? && s.doneCnt < s.wgCnt then
        Some(s.(collector := ReleaseCounting, wg := s.wg - 1))
      else None
    case ReleaseCount =>
      if s.collector.ReleaseCounting? then Some(s.(collector := Release, doneCnt := s.doneCnt + 1)) else None
    case ReleaseEnd =>
      if s.collector.Release? && s.doneCnt >= s.wgCnt then Some(s.(collector := Select)) else None
    case _ => None
  }

  function Run(s: Group, labels: seq<Label>): Option<Group>
    decreases |labels|
  {
    if labels == [] then Some(s)
    else match Next(s, labels[0])
      case None => None
      case Some(next) => Run(next, labels[1..])
  }

  function Start(tasks: seq<bool>): Group {
    Group(tasks, 0, Loop, 0, 0, 0, false, NotStarted, 0, false, {}, {}, 0, 0, 0)
  }

  // ----- The invariant -----

  function Min(a: nat, b: nat): nat {
    if a <= b then a else b
  }

  /** The positions before i whose task is not nil. */
  function Real(tasks: seq<bool>, i: nat): set<nat> {
    set j: nat | j < i && j < |tasks| && tasks[j]
  }

  predicate Halfway(c: CollectorPc) {
    c.Counting? || c.ReleaseCounting?
  }

  /** The counter of the wait group, at every point of both goroutines. */
  predicate CounterInv(s: Group) {
    && s.wg == s.wgCnt - Min(s.doneCnt, s.wgCnt) - One(Halfway(s.collector))
    && (Halfway(s.collector) ==> s.doneCnt < s.wgCnt)
    && (s.collector.NotStarted? ==> s.doneCnt == 0 && s.received == 0)
    && (!s.err ==> s.received == s.doneCnt + One(s.collector.Message? || s.collector.Counting?))
    && (s.collector.Release? || s.collector.ReleaseCounting? ==> s.err)
  }

  /** Every accepted task is waiting to send, has sent, or was refused by the closed channel. */
  predicate MessageInv(s: Group) {
    && s.buffered + s.received == s.sent
    && s.pending <= s.accepted
    && s.sent + s.refused + |s.pending| == |s.accepted|
    && (s.refused > 0 ==> s.closed) && (s.closed <==> s.main.Returned?)
  }

  /** What has been counted and accepted is what the loop has come to. */
  predicate ProgressInv(s: Group) {
    && s.i <= |s.tasks|
    && (s.main.Adding? || s.main.Added? ==> s.i < |s.tasks| && s.tasks[s.i])
    && (s.collector.NotStarted? <== s.main.Loop? || s.main.Adding? || s.main.Added?)
    && (s.main.Waiting? ==> s.i == |s.tasks|)
    && s.accepted <= Real(s.tasks, s.i + 1)
    && (s.main.Loop? || s.main.Waiting? ==> s.accepted == Real(s.tasks, s.i) && s.wgCnt == |s.accepted|)
    && (s.main.Adding? ==> s.accepted == Real(s.tasks, s.i) && s.wgCnt == |s.accepted| + 1)
    && (s.main.Added? ==> s.accepted == Real(s.tasks, s.i) + {s.i} && s.wgCnt == |s.accepted|)
  }

  /** The collector ends when the channel is closed and read out, or by one surplus message; what an interruption
      has begun to release it releases to the end. */
  predicate CollectorInv(s: Group) {
    && (s.collector.Ended? ==> (s.closed && s.buffered == 0) || s.doneCnt == s.wgCnt + 1)
    && (s.doneCnt > s.wgCnt ==> s.collector.Ended? && s.doneCnt == s.wgCnt + 1 && s.err)
    && (s.err && (s.collector.Select? || s.collector.Message? || s.collector.Counting?) ==> s.doneCnt >= s.wgCnt)
    && (s.err && s.collector.Ended? && !s.closed ==> s.doneCnt >= s.wgCnt)
    && ((s.main.Returning? || s.main.Returned?) && s.collector.NotStarted? ==> s.i < |s.tasks| && s.tasks[s.i] && s.err)
    && ((s.main.Returning? || s.main.Returned?) && !s.collector.NotStarted? ==> s.wg == 0)
    && (s.err && s.collector.NotStarted? ==> s.main.Returning? || s.main.Returned?)
    && (s.main.Waiting? ==> !s.collector.NotStarted?)
  }

  /** A return without an error comes after the wait. */
  predicate ReturnInv(s: Group) {
    (s.main.Returning? || s.main.Returned?) && !s.err ==>
      s.i == |s.tasks| && s.wg == 0 && s.accepted == Real(s.tasks, s.i) && s.wgCnt == |s.accepted|
  }

  predicate Inv(s: Group) {
    CounterInv(s) && MessageInv(s) && ProgressInv(s) && ReturnInv(s) && CollectorInv(s)
  }

  lemma StartHasInv(tasks: seq<bool>)
    ensures Inv(Start(tasks))
  {
    assert Real(tasks, 0) == {};
  }

  lemma SkipKeepsInv(s: Group)
    requires Inv(s) && MainNext(s, SkipNil).Some?
    ensures Inv(MainNext(s, SkipNil).value)
  {
    assert Real(s.tasks, s.i + 1) == Real(s.tasks, s.i);
    assert Real(s.tasks, s.i + 1) <= Real(s.tasks, s.i + 2);
  }

  lemma ReturnKeepsInv(s: Group)
    requires Inv(s) && MainNext(s, AddReturns).Some?
    ensures Inv(MainNext(s, AddReturns).value)
  {
    assert Real(s.tasks, s.i + 1) == Real(s.tasks, s.i) + {s.i};
    assert Real(s.tasks, s.i + 1) <= Real(s.tasks, s.i + 2);
  }

  lemma EnqueueKeepsInv(s: Group)
    requires Inv(s) && MainNext(s, Enqueue).Some?
    ensures Inv(MainNext(s, Enqueue).value)
  {
    assert s.i !in Real(s.tasks, s.i) && s.i !in s.pending;
    assert Real(s.tasks, s.i + 1) == Real(s.tasks, s.i) + {s.i};
  }

  lemma MainKeepsInv(s: Group, l: Label)
    requires Inv(s) && MainNext(s, l).Some?
    ensures Inv(MainNext(s, l).value)
  {
    if l.SkipNil? {
      SkipKeepsInv(s);
    } else if l.Enqueue? {
      EnqueueKeepsInv(s);
    } else if l.AddReturns? {
      ReturnKeepsInv(s);
    }
  }

  lemma CompleteKeepsInv(s: Group, j: nat)
    requires Inv(s) && CompleteNext(s, j).Some?
    ensures Inv(CompleteNext(s, j).value)
  {
  }

  lemma CollectorKeepsInv(s: Group, l: Label)
    requires Inv(s) && CollectorNext(s, l).Some?
    ensures Inv(CollectorNext(s, l).value)
  {
  }

  lemma StepHasInv(s: Group, l: Label)
    requires Inv(s) && Next(s, l).Some?
    ensures Inv(Next(s, l).value)
  {
    if l.Complete? {
      CompleteKeepsInv(s, l.j);
    } else if MainNext(s, l).Some? {
      MainKeepsInv(s, l);
    } else {
      CollectorKeepsInv(s, l);
    }
  }

  lemma {:induction false} RunKeepsInv(s: Group, labels: seq<Label>)
    requires Inv(s) && Run(s, labels).Some?
    ensures Inv(Run(s, labels).value)
    decreases |labels|
  {
    if labels != [] {
      StepHasInv(s, labels[0]);
      RunKeepsInv(Next(s, labels[0]).value, labels[1..]);
    }
  }

  // ----- The guarantees -----

  ghost predicate Reachable(s: Group) {
    exists tasks: seq<bool>, labels: seq<Label> :: Run(Start(tasks), labels) == Some(s)
  }

  lemma ReachableHasInv(s: Group)
    requires Reachable(s)
    ensures Inv(s)
  {
    var tasks: seq<bool>, labels: seq<Label> :| Run(Start(tasks), labels) == Some(s);
    StartHasInv(tasks);
    RunKeepsInv(Start(tasks), labels);
  }

  /** Whatever the order of messages, timer and context closure, the wait-group counter is the number
      of tasks counted less those accounted for, it is never negative, and each wg.Done finds it positive. */
  lemma CounterIsExact(s: Group)
    requires Reachable(s)
    ensures s.wg >= 0
    ensures s.collector.Select? || s.collector.Message? || s.collector.Release? || s.collector.Ended? ==>
      s.wg == s.wgCnt - Min(s.doneCnt, s.wgCnt)
    ensures Next(s, Done).Some? || Next(s, ReleaseOne).Some? ==> s.wg > 0
  {
    ReachableHasInv(s);
  }

  /** A task's completion message never blocks: the channel never fills past len(tasks). */
  lemma MessagesNeverBlock(s: Group, j: nat)
    requires Reachable(s) && j in s.pending
    ensures Next(s, Complete(j)).Some? && s.buffered < |s.tasks|
  {
    ReachableHasInv(s);
    BoundedSize(s.accepted, |s.tasks|);
    assert |s.pending| > 0;
  }

  /** When the group returns, or is about to, without an error, every task of the list that is not nil was
      accepted, has sent its message, and the message was received. */
  lemma NilMeansAllReceived(s: Group)
    requires Reachable(s) && (s.main.Returning? || s.main.Returned?) && !s.err
    ensures s.accepted == Real(s.tasks, |s.tasks|) && s.pending == {}
    ensures s.received == s.sent == |s.accepted| == s.wgCnt
  {
    ReachableHasInv(s);
  }

  /** The collector stops releasing only when the counter is zero, and a surplus message can come only after
      an interruption. */
  lemma InterruptReleasesAll(s: Group)
    requires Reachable(s)
    ensures Next(s, ReleaseEnd).Some? ==> s.wg == 0
    ensures Next(s, Surplus).Some? ==> s.err && s.wg == 0
    ensures s.collector.Ended? ==> (s.closed && s.buffered == 0) || s.doneCnt == s.wgCnt + 1
  {
    ReachableHasInv(s);
    BoundedSize(s.accepted, |s.tasks|);
  }

  // ----- The group can always return -----

  predicate Over(s: Group) {
    s.main.Returned? && (s.collector.NotStarted? || s.collector.Ended?)
  }

  function MainRank(s: Group): nat {
    match s.main
    case Loop => 100 * Left(s) + 60
    case Adding => 100 * Left(s) + 50
    case Added => 100 * Left(s) + 30
    case Waiting => 20
    case Returning => 10
    case Returned => 0
  }

  function Left(s: Group): nat {
    if s.i <= |s.tasks| then |s.tasks| - s.i else 0
  }

  function CollectorRank(c: CollectorPc): nat {
    match c
    case NotStarted => 0
    case Select => 5
    case Message => 9
    case Counting => 8
    case Release => 7
    case ReleaseCounting => 6
    case Ended => 0
  }

  function Distance(s: Group): nat {
    MainRank(s) + CollectorRank(s.collector) + 10 * |s.pending| + 6 * s.buffered
    + (if s.doneCnt < s.wgCnt then 4 * (s.wgCnt - s.doneCnt) else 0)
  }

  function MainLabel(s: Group): Label {
    match s.main
    case Loop =>
      if s.i >= |s.tasks| then StartCollector else if s.tasks[s.i] then Count else SkipNil
    case Adding => Enqueue
    case Added => AddReturns
    case Waiting => SeeZero
    case _ => CloseDone
  }

  function CollectorLabel(s: Group): Label {
    match s.collector
    case Message => if s.doneCnt < s.wgCnt then Done else Surplus
    case Counting => CountDone
    case Release => if s.doneCnt < s.wgCnt then ReleaseOne else ReleaseEnd
    case ReleaseCounting => ReleaseCount
    case _ => if s.buffered > 0 then Receive else SeeClosed
  }

  lemma LoopGoesOn(s: Group)
    requires Inv(s) && s.main.Loop?
    ensures Next(s, MainLabel(s)).Some? && Distance(Next(s, MainLabel(s)).value) < Distance(s)
  {
  }

  lemma AddGoesOn(s: Group)
    requires Inv(s) && (s.main.Adding? || s.main.Added?)
    ensures Next(s, MainLabel(s)).Some? && Distance(Next(s, MainLabel(s)).value) < Distance(s)
  {
    assert |s.pending + {s.i}| <= |s.pending| + 1;
  }

  lemma EndGoesOn(s: Group)
    requires Inv(s) && (s.main.Returning? || (s.main.Waiting? && s.wg == 0))
    ensures Next(s, MainLabel(s)).Some? && Distance(Next(s, MainLabel(s)).value) < Distance(s)
  {
  }

  lemma MainGoesOn(s: Group)
    requires Inv(s) && !s.main.Returned? && (s.main.Waiting? ==> s.wg == 0)
    ensures Next(s, MainLabel(s)).Some? && Distance(Next(s, MainLabel(s)).value) < Distance(s)
  {
    match s.main
    case Loop => LoopGoesOn(s);
    case Adding => AddGoesOn(s);
    case Added => AddGoesOn(s);
    case _ => EndGoesOn(s);
  }

  lemma CollectorGoesOn(s: Group)
    requires Inv(s) && !s.collector.NotStarted? && !s.collector.Ended?
    requires s.collector.Select? ==> s.buffered > 0 || s.closed
    ensures Next(s, CollectorLabel(s)).Some? && Distance(Next(s, CollectorLabel(s)).value) < Distance(s)
  {
  }

  lemma MessageGoesOn(s: Group, j: nat)
    requires Inv(s) && j in s.pending
    ensures Next(s, Complete(j)).Some? && Distance(Next(s, Complete(j)).value) < Distance(s)
  {
    BoundedSize(s.accepted, |s.tasks|);
    assert |s.pending - {j}| == |s.pending| - 1;
  }

  /** A wait with nobody else to move is a wait for a task. */
  lemma SomeTaskIsPending(s: Group)
    requires Inv(s) && !Over(s) && (s.main.Returned? || (s.main.Waiting? && s.wg != 0))
    requires s.collector.Select? && s.buffered == 0 && !s.closed
    ensures s.pending != {}
  {
  }

  lemma CollectorIsAtWork(s: Group)
    requires Inv(s) && !Over(s) && (s.main.Returned? || (s.main.Waiting? && s.wg != 0))
    ensures !s.collector.NotStarted? && !s.collector.Ended?
    ensures !s.err ==> !CollectorLabel(s).Surplus?
  {
  }

  lemma PlainStepKeepsNil(s: Group, l: Label)
    requires Next(s, l).Some? && !l.Interrupt? && !l.TotalTimeout? && !l.AddFails? && !l.AddFailsLate? && !l.Surplus? && !s.err
    ensures !Next(s, l).value.err
  {
  }

  /** Somebody can always take a step towards the end, without an interruption. */
  lemma Progress(s: Group) returns (l: Label)
    requires Inv(s) && !Over(s)
    ensures l != Interrupt && Next(s, l).Some? && Distance(Next(s, l).value) < Distance(s)
    ensures !l.TotalTimeout? && !l.AddFails? && !l.AddFailsLate?
    ensures !s.err ==> !Next(s, l).value.err
  {
    if !s.main.Returned? && (s.main.Waiting? ==> s.wg == 0) {
      MainGoesOn(s);
      l := MainLabel(s);
    } else if s.collector.Select? && s.buffered == 0 && !s.closed {
      SomeTaskIsPending(s);
      var j :| j in s.pending;
      MessageGoesOn(s, j);
      l := Complete(j);
    } else {
      CollectorIsAtWork(s);
      CollectorGoesOn(s);
      l := CollectorLabel(s);
    }
    if !s.err {
      PlainStepKeepsNil(s, l);
    }
  }

  lemma {:induction false} FinishFrom(s: Group) returns (n: Group, labels: seq<Label>)
    requires Inv(s)
    ensures Run(s, labels) == Some(n) && Over(n) && (!s.err ==> !n.err)
    decreases Distance(s)
  {
    if Over(s) {
      n, labels := s, [];
    } else {
      var l := Progress(s);
      StepHasInv(s, l);
      n, labels := FinishFrom(Next(s, l).value);
      labels := [l] + labels;
    }
  }

  /** From every state the group can come to return with its collector ended; and without an error as long as
      there has been none. */
  lemma GroupCanAlwaysReturn(s: Group) returns (n: Group, labels: seq<Label>)
    requires Reachable(s)
    ensures Run(s, labels) == Some(n) && Over(n) && (!s.err ==> !n.err)
  {
    ReachableHasInv(s);
    n, labels := FinishFrom(s);
  }

  lemma {:induction false} RunConcat(s: Group, a: seq<Label>, b: seq<Label>)
    requires Run(s, a).Some?
    ensures Run(s, a + b) == Run(Run(s, a).value, b)
    decreases |a|
  {
    if a == [] {
      assert a + b == b;
    } else {
      assert (a + b)[0] == a[0] && (a + b)[1..] == a[1..] + b;
      RunConcat(Next(s, a[0]).value, a[1..], b);
    }
  }

  lemma Extend(s: Group, l: Label) returns (n: Group)
    requires Reachable(s) && Next(s, l).Some?
    ensures Reachable(n) && n == Next(s, l).value
  {
    n := Next(s, l).value;
    var tasks: seq<bool>, labels: seq<Label> :| Run(Start(tasks), labels) == Some(s);
    RunConcat(Start(tasks), labels, [l]);
    assert [l][1..] == [];
    assert Run(Start(tasks), labels + [l]) == Some(n);
  }

  lemma WaitingGroup() returns (s: Group)
    ensures Reachable(s)
    ensures s == Group([true], 1, Waiting, 1, 1, 0, false, Select, 0, false, {0}, {0}, 0, 0, 0)
  {
    s := Start([true]);
    assert Run(s, []) == Some(s);
    s := Extend(s, Count);
    s := Extend(s, Enqueue);
    s := Extend(s, AddReturns);
    s := Extend(s, StartCollector);
  }

  /** With an error the wait may end early: one task is accepted, the timer fires, and the group
      returns with the task still to come. */
  lemma InterruptedGroupLeavesTasks() returns (s: Group)
    ensures Reachable(s) && Next(s, SeeZero).Some? && s.err && s.pending == {0}
  {
    s := WaitingGroup();
    s := Extend(s, Interrupt);
    s := Extend(s, ReleaseOne);
    s := Extend(s, ReleaseCount);
  }
}
