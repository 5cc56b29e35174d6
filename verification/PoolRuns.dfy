/** Building runs of module PoolMachine step by step. */
module PoolRuns {
  import opened Options
  import opened PoolMachine

  ghost predicate Reaches(s: Pool, n: Pool) {
    exists labels: seq<Label> :: Run(s, labels) == Some(n)
  }

  /** A new Stop call on a task from outside the pool. */
  predicate OutsideStop(l: Label) {
    l.OfTask? && l.o.StopCheck?
  }

  /** By a run without Stop calls from outside. */
  ghost predicate ReachesAlone(s: Pool, n: Pool) {
    exists labels: seq<Label> :: Run(s, labels) == Some(n) && forall l <- labels :: !OutsideStop(l)
  }

  lemma AloneIsReached(s: Pool, n: Pool)
    requires ReachesAlone(s, n)
    ensures Reaches(s, n)
  {
  }

  lemma AloneFromItself(s: Pool)
    ensures ReachesAlone(s, s)
  {
    assert Run(s, []) == Some(s);
  }

  lemma {:induction false} RunConcat(s: Pool, a: seq<Label>, b: seq<Label>)
    requires Run(s, a).Some?
    ensures Run(s, a + b) == Run(Run(s, a).value, b)
    decreases |a|
  {
    if a == [] {
      assert a + b == b;
    } else {
      assert (a + b)[0] == a[0] && (a + b)[1..] == a[1..] + b;
      RunConcat(Next(s, a[0]).value, a[1..], b);
    }
  }

  lemma ReachesOn(s: Pool, m: Pool, n: Pool)
    requires Reaches(s, m) && Reaches(m, n)
    ensures Reaches(s, n)
  {
    var a: seq<Label> :| Run(s, a) == Some(m);
    var b: seq<Label> :| Run(m, b) == Some(n);
    RunConcat(s, a, b);
    assert Run(s, a + b) == Some(n);
  }

  /** Equality component by component. */
  ghost predicate Same(a: Pool, b: Pool) {
    && a.cfg == b.cfg && a.ctl == b.ctl
    && a.queue.items == b.queue.items && a.queue.closed == b.queue.closed
    && a.errs.items == b.errs.items && a.errs.closed == b.errs.closed
    && a.workers == b.workers && a.clients == b.clients && a.wg == b.wg
    && a.tasks == b.tasks && a.loc == b.loc && a.added == b.added
  }

  lemma Step(s: Pool, n: Pool, l: Label, m: Pool)
    requires Reaches(s, n) && Next(n, l).Some? && Same(Next(n, l).value, m)
    ensures Reaches(s, m)
  {
    assert Next(n, l) == Some(m);
    var labels: seq<Label> :| Run(s, labels) == Some(n);
    RunConcat(s, labels, [l]);
    assert [l][1..] == [];
    assert Run(s, labels + [l]) == Some(m);
  }

  lemma StepAlone(s: Pool, n: Pool, l: Label)
    requires ReachesAlone(s, n) && !OutsideStop(l) && Next(n, l).Some?
    ensures ReachesAlone(s, Next(n, l).value)
  {
    var labels: seq<Label> :| Run(s, labels) == Some(n) && forall x <- labels :: !OutsideStop(x);
    RunConcat(s, labels, [l]);
    assert [l][1..] == [];
    assert Run(s, labels + [l]) == Next(n, l);
  }
}
