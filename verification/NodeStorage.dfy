/**
nodeStorage of pkg/storage/node.go: two snapshots per node, and what they say
about the whole history of stored batches.
*/
module NodeHistory {
  import opened Options
  import opened MetricsTypes
  import opened Rates

  type Nodes = map<string, MetricsPoint>

  /** The points of a node in the unbroken run of batches that ends the history and contains it. */
  function PointRun(history: seq<Nodes>, name: string): seq<MetricsPoint>
    decreases |history|
  {
    if history == [] || name !in history[|history| - 1] then []
    else PointRun(history[..|history| - 1], name) + [history[|history| - 1][name]]
  }

  function LastPoint(run: seq<MetricsPoint>): Option<MetricsPoint> {
    if run == [] then None else Some(run[|run| - 1])
  }

  /** Point j is older than the last one, and since point j + 1 the timestamps have not risen. */
  ghost predicate IsPrevious(run: seq<MetricsPoint>, j: nat) {
    && j + 1 < |run|
    && run[j].timestamp < run[|run| - 1].timestamp
    && forall k: nat :: j < k < |run| - 1 ==> run[k + 1].timestamp <= run[k].timestamp
  }

  ghost function PreviousPoint(run: seq<MetricsPoint>): Option<MetricsPoint> {
    if exists j: nat :: IsPrevious(run, j) then
      var j: nat :| IsPrevious(run, j);
      Some(run[j])
    else None
  }

  lemma {:induction false} NotRising(run: seq<MetricsPoint>, j: nat, k: nat)
    requires IsPrevious(run, j) && j < k < |run|
    ensures run[|run| - 1].timestamp <= run[k].timestamp
    decreases |run| - k
  {
    if k < |run| - 1 {
      NotRising(run, j, k + 1);
    }
  }

  /** The previous point is the most recent one whose timestamp is strictly below the last one's. */
  lemma PreviousIsNewestOlder(run: seq<MetricsPoint>, j: nat)
    requires IsPrevious(run, j)
    ensures PreviousPoint(run) == Some(run[j])
    ensures forall k: nat :: j < k < |run| ==> run[|run| - 1].timestamp <= run[k].timestamp
  {
    forall k: nat | j < k < |run|
      ensures run[|run| - 1].timestamp <= run[k].timestamp
    {
      NotRising(run, j, k);
    }
    forall i: nat | IsPrevious(run, i)
      ensures i == j
    {
      if i < j {
        NotRising(run, i, j);
      }
    }
  }

  ghost predicate NewestOlder(run: seq<MetricsPoint>, j: nat) {
    && j + 1 < |run|
    && run[j].timestamp < run[|run| - 1].timestamp
    && forall k: nat :: j < k < |run| ==> run[|run| - 1].timestamp <= run[k].timestamp
  }

  /** An older point exists and yet none is kept exactly when, after the newest older one, the
      timestamps rose once more before the last point. */
  lemma DroppedExactlyWhenRisen(run: seq<MetricsPoint>, j: nat)
    requires NewestOlder(run, j)
    ensures PreviousPoint(run).None?
            <==> exists k: nat :: j < k < |run| - 1 && run[k].timestamp < run[k + 1].timestamp
    ensures PreviousPoint(run).Some? ==> PreviousPoint(run) == Some(run[j])
  {
    if i: nat :| IsPrevious(run, i) {
      if i < j {
        NotRising(run, i, j);
      }
      assert i == j;
      PreviousIsNewestOlder(run, j);
    } else {
      assert !IsPrevious(run, j);
    }
  }

  /** Timestamps 1, 3, 5 and then 3 again: the point at 1 is older than the last one, and is not kept. */
  lemma DropHappens(name: string, p1: MetricsPoint, p3: MetricsPoint, p5: MetricsPoint)
    requires p1.timestamp == 1 && p3.timestamp == 3 && p5.timestamp == 5
    ensures var run := PointRun([map[name := p1]] + [map[name := p3]] + [map[name := p5]] + [map[name := p3]], name);
      run == [p1, p3, p5, p3] && NewestOlder(run, 0) && PreviousPoint(run).None?
  {
    var h1: Nodes, h3: Nodes, h5: Nodes := map[name := p1], map[name := p3], map[name := p5];
    RunGrows([], h1, name);
    RunGrows([h1], h3, name);
    RunGrows([h1] + [h3], h5, name);
    RunGrows([h1] + [h3] + [h5], h3, name);
    assert [] + [h1] == [h1];
    DropOfRun([p1, p3, p5, p3]);
  }

  lemma DropOfRun(run: seq<MetricsPoint>)
    requires |run| == 4 && run[0].timestamp < run[3].timestamp <= run[1].timestamp < run[2].timestamp
    ensures NewestOlder(run, 0) && PreviousPoint(run).None?
  {
    assert run[1].timestamp < run[1 + 1].timestamp;
    DroppedExactlyWhenRisen(run, 0);
  }

  /** A batch without the node breaks the run, and the next one with it begins anew. */
  lemma RunGrows(history: seq<Nodes>, nodes: Nodes, name: string)
    ensures PointRun([], name) == []
    ensures PointRun(history + [nodes], name) == if name in nodes then PointRun(history, name) + [nodes[name]] else []
  {
    assert (history + [nodes])[..|history|] == history;
  }

  ghost predicate Steady(run: seq<MetricsPoint>) {
    forall k: nat :: k + 1 < |run| ==> run[k].timestamp <= run[k + 1].timestamp
  }

  lemma {:induction false} SteadyOrder(run: seq<MetricsPoint>, i: nat, k: nat)
    requires Steady(run) && i <= k < |run|
    ensures run[i].timestamp <= run[k].timestamp
    decreases k - i
  {
    if i < k {
      SteadyOrder(run, i, k - 1);
      assert run[k - 1].timestamp <= run[k - 1 + 1].timestamp;
    }
  }

  /** When timestamps never go down, a previous point is kept exactly when some older point exists. */
  lemma SteadyKeepsPrevious(run: seq<MetricsPoint>)
    requires Steady(run)
    ensures PreviousPoint(run).Some?
            <==> exists j: nat :: j + 1 < |run| && run[j].timestamp < run[|run| - 1].timestamp
  {
    if j: nat :| j + 1 < |run| && run[j].timestamp < run[|run| - 1].timestamp {
      var i := j;
      while i + 2 < |run| && run[i + 1].timestamp < run[|run| - 1].timestamp
        invariant i + 1 < |run| && run[i].timestamp < run[|run| - 1].timestamp
        decreases |run| - i
      {
        i := i + 1;
      }
      forall k: nat | i < k < |run| - 1
        ensures run[k + 1].timestamp <= run[k].timestamp
      {
        SteadyOrder(run, i + 1, k);
        SteadyOrder(run, k + 1, |run| - 1);
      }
      assert IsPrevious(run, i);
    }
  }

  /** What one Store does with the two stored points of a node when a new one comes. */
  function Carry(last: Option<MetricsPoint>, prev: Option<MetricsPoint>, point: MetricsPoint): Option<MetricsPoint> {
    if last.None? then None
    else if last.value.timestamp < point.timestamp then last
    else if prev.Some? && prev.value.timestamp < point.timestamp then prev
    else None
  }

  /** The step from the two stored points is the step on the whole run. */
  lemma CarryIsPrevious(run: seq<MetricsPoint>, point: MetricsPoint)
    ensures PreviousPoint(run + [point]) == Carry(LastPoint(run), PreviousPoint(run), point)
  {
    var longer := run + [point];
    if run != [] && run[|run| - 1].timestamp < point.timestamp {
      assert IsPrevious(longer, |run| - 1);
      PreviousIsNewestOlder(longer, |run| - 1);
    } else {
      forall j: nat
        ensures IsPrevious(longer, j) <==> IsPrevious(run, j) && run[j].timestamp < point.timestamp
      {
        CarryIndex(run, point, j);
      }
      if j: nat :| IsPrevious(run, j) {
        PreviousIsNewestOlder(run, j);
        if run[j].timestamp < point.timestamp {
          PreviousIsNewestOlder(longer, j);
        } else {
          forall i: nat | IsPrevious(run, i)
            ensures run[i] == run[j]
          {
            PreviousIsNewestOlder(run, i);
          }
        }
      }
    }
  }

  /** When the new point is not newer than the last, only the old candidate can stay, if it is older. */
  lemma CarryIndex(run: seq<MetricsPoint>, point: MetricsPoint, j: nat)
    requires run != [] ==> point.timestamp <= run[|run| - 1].timestamp
    ensures IsPrevious(run + [point], j) <==> IsPrevious(run, j) && run[j].timestamp < point.timestamp
  {
    var longer := run + [point];
    if IsPrevious(longer, j) {
      assert longer[|run| - 1] == run[|run| - 1];
      assert longer[|run| - 1 + 1].timestamp <= longer[|run| - 1].timestamp;
      forall k: nat | j < k < |run| - 1
        ensures run[k + 1].timestamp <= run[k].timestamp
      {
        assert longer[k + 1].timestamp <= longer[k].timestamp;
      }
    }
    if IsPrevious(run, j) && run[j].timestamp < point.timestamp {
      forall k: nat | j < k < |longer| - 1
        ensures longer[k + 1].timestamp <= longer[k].timestamp
      {
      }
    }
  }

  // ----- Answers -----

  datatype NodeMetrics = NodeMetrics(name: string, usage: Usage)

  /** The answer for one node as the whole history gives it. */
  ghost function Answer(run: seq<MetricsPoint>): Option<Usage> {
    match PreviousPoint(run)
    case None => None
    case Some(p) =>
      PreviousIsOlder(run);
      ResourceUsage(run[|run| - 1], p)
  }

  lemma PreviousIsOlder(run: seq<MetricsPoint>)
    requires PreviousPoint(run).Some?
    ensures |run| > 1 && PreviousPoint(run).value.timestamp < run[|run| - 1].timestamp
  {
  }

  ghost function Answers(history: seq<Nodes>, names: seq<string>): seq<NodeMetrics>
    decreases |names|
  {
    if names == [] then []
    else
      var before := Answers(history, names[..|names| - 1]);
      var name := names[|names| - 1];
      match Answer(PointRun(history, name))
      case None => before
      case Some(u) => before + [NodeMetrics(name, u)]
  }

  /** The answers come in the order asked. */
  lemma {:induction false} AnswersInOrder(history: seq<Nodes>, a: seq<string>, b: seq<string>)
    ensures Answers(history, a + b) == Answers(history, a) + Answers(history, b)
    decreases |b|
  {
    if b == [] {
      assert a + b == a;
    } else {
      var n := |b| - 1;
      assert (a + b)[..|a + b| - 1] == a + b[..n];
      AnswersInOrder(history, a, b[..n]);
    }
  }

  /** Under its own name, a node with a previous point is answered by the rate between it and the last
      point, unless the CPU value went down. */
  lemma AnswersOne(history: seq<Nodes>, name: string)
    ensures Answers(history, []) == []
    ensures var run := PointRun(history, name);
      PreviousPoint(run).None? ==> Answers(history, [name]) == []
    ensures var run := PointRun(history, name);
      PreviousPoint(run).Some? ==>
        && |run| > 0 && PreviousPoint(run).value.timestamp < run[|run| - 1].timestamp
        && var usage := ResourceUsage(run[|run| - 1], PreviousPoint(run).value);
           Answers(history, [name]) == if usage.Some? then [NodeMetrics(name, usage.value)] else []
  {
    assert [name][..0] == [];
    if PreviousPoint(PointRun(history, name)).Some? {
      PreviousIsOlder(PointRun(history, name));
    }
  }
}

module NodeStore {
  import opened Options
  import opened MetricsTypes
  import opened Rates
  import opened NodeHistory

  class NodeStorage {
    var last: Nodes
    var prev: Nodes
    ghost var history: seq<Nodes>

    /** Both snapshots are what the history says, for every node name. */
    ghost predicate Valid()
      reads this
    {
      forall name: string ::
        && Lookup(last, name) == LastPoint(PointRun(history, name))
        && Lookup(prev, name) == PreviousPoint(PointRun(history, name))
    }

    constructor ()
      ensures Valid() && history == []
    {
      last, prev, history := map[], map[], [];
    }

    method Store(batch: Batch)
      requires Valid()
      modifies this
      ensures Valid() && history == old(history) + [batch.nodes]
    {
      var lastNodes: Nodes := map[];
      var prevNodes: Nodes := map[];
      var todo := batch.nodes.Keys;
      while todo != {}
        invariant todo <= batch.nodes.Keys
        invariant last == old(last) && prev == old(prev) && history == old(history) && Valid()
        invariant lastNodes.Keys == batch.nodes.Keys - todo
        invariant forall name :: name in lastNodes ==> lastNodes[name] == batch.nodes[name]
        invariant prevNodes.Keys <= lastNodes.Keys
        invariant forall name :: name in lastNodes ==>
          Lookup(prevNodes, name) == Carry(Lookup(last, name), Lookup(prev, name), batch.nodes[name])
      {
        var name :| name in todo;
        var newPoint := batch.nodes[name];
        todo := todo - {name};
        lastNodes := lastNodes[name := newPoint];
        if name in last {
          var lastNode := last[name];
          if lastNode.timestamp < newPoint.timestamp {
            prevNodes := prevNodes[name := lastNode];
          } else if name in prev {
            var prevPoint := prev[name];
            if prevPoint.timestamp < newPoint.timestamp {
              prevNodes := prevNodes[name := prevPoint];
            }
          }
        }
      }
      ghost var longer := history + [batch.nodes];
      assert longer[..|longer| - 1] == history;
      forall name: string
        ensures Lookup(lastNodes, name) == LastPoint(PointRun(longer, name))
        ensures Lookup(prevNodes, name) == PreviousPoint(PointRun(longer, name))
      {
        if name in batch.nodes {
          assert name in lastNodes;
          CarryIsPrevious(PointRun(history, name), batch.nodes[name]);
        }
      }
      last, prev, history := lastNodes, prevNodes, longer;
    }

    method GetMetrics(names: seq<string>) returns (results: seq<NodeMetrics>)
      requires Valid()
      ensures results == Answers(history, names)
    {
      results := [];
      for i := 0 to |names|
        invariant results == Answers(history, names[..i])
      {
        var name := names[i];
        assert names[..i + 1][..i] == names[..i];
        assert Lookup(last, name) == LastPoint(PointRun(history, name));
        assert Lookup(prev, name) == PreviousPoint(PointRun(history, name));
        if name in last && name in prev {
          PreviousIsOlder(PointRun(history, name));
          var usage := ResourceUsage(last[name], prev[name]);
          if usage.Some? {
            results := results + [NodeMetrics(name, usage.value)];
          }
        }
      }
      assert names[..|names|] == names;
    }
  }
}
