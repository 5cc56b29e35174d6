/** storage of pkg/storage/storage.go: both stores behind one lock, so that one call is one step. */
module Storage {
  import opened Options
  import opened MetricsTypes
  import NodeHistory
  import NodeStore
  import PodHistory
  import PodStore

  function NodesOf(history: seq<Batch>): seq<NodeHistory.Nodes> {
    seq(|history|, i requires 0 <= i < |history| => history[i].nodes)
  }

  function PodsOf(history: seq<Batch>): seq<PodHistory.Pods> {
    seq(|history|, i requires 0 <= i < |history| => history[i].pods)
  }

  ghost predicate SomeNode(history: seq<NodeHistory.Nodes>) {
    exists name: string :: NodeHistory.PreviousPoint(NodeHistory.PointRun(history, name)).Some?
  }

  ghost predicate SomeContainer(resolution: nat, history: seq<PodHistory.Pods>) {
    exists ref: PodRef, name: string ::
      PodHistory.FindPoint(PodHistory.PrevAfter(resolution, history), ref, name).Some?
  }

  lemma SomeNodeKept(prev: NodeHistory.Nodes, history: seq<NodeHistory.Nodes>)
    requires forall name: string ::
               Lookup(prev, name) == NodeHistory.PreviousPoint(NodeHistory.PointRun(history, name))
    ensures |prev| != 0 <==> SomeNode(history)
  {
    if |prev| != 0 {
      assert prev.Keys != {};
      var name: string :| name in prev.Keys;
      assert Lookup(prev, name).Some?;
    }
    if SomeNode(history) {
      var name: string :| NodeHistory.PreviousPoint(NodeHistory.PointRun(history, name)).Some?;
      assert name in prev;
    }
  }

  lemma SomeContainerKept(resolution: nat, history: seq<PodHistory.Pods>)
    ensures |PodHistory.PrevAfter(resolution, history)| != 0 <==> SomeContainer(resolution, history)
  {
    var prev: PodHistory.Pods := PodHistory.PrevAfter(resolution, history);
    if |prev| != 0 {
      assert prev.Keys != {};
      var ref: PodRef :| ref in prev.Keys;
      PodHistory.KeptPodsHavePoints(resolution, history, ref);
      var containers: Containers := prev[ref];
      assert |containers| != 0 && containers.Keys != {};
      var name: string :| name in containers.Keys;
      assert PodHistory.FindPoint(prev, ref, name).Some?;
    }
    if SomeContainer(resolution, history) {
      var ref: PodRef, name: string :| PodHistory.FindPoint(prev, ref, name).Some?;
      assert ref in prev;
    }
  }

  class MetricsStorage {
    const nodes: NodeStore.NodeStorage
    const pods: PodStore.PodStorage
    ghost var history: seq<Batch>

    ghost predicate Valid()
      reads this, nodes, pods
    {
      && nodes.Valid() && nodes.history == NodesOf(history)
      && pods.Valid() && pods.history == PodsOf(history)
    }

    constructor (metricResolution: nat)
      ensures Valid() && fresh(nodes) && fresh(pods)
      ensures history == [] && pods.metricResolution == metricResolution
    {
      nodes := new NodeStore.NodeStorage();
      pods := new PodStore.PodStorage(metricResolution);
      history := [];
    }

    method Store(batch: Batch)
      requires Valid()
      modifies this, nodes, pods
      ensures Valid() && history == old(history) + [batch]
    {
      nodes.Store(batch);
      pods.Store(batch);
      history := history + [batch];
    }

    /** Ready exactly when some node or some container has a previous point. */
    method Ready() returns (ready: bool)
      requires Valid()
      ensures ready <==> SomeNode(NodesOf(history)) || SomeContainer(pods.metricResolution, PodsOf(history))
    {
      SomeNodeKept(nodes.prev, nodes.history);
      SomeContainerKept(pods.metricResolution, pods.history);
      ready := |nodes.prev| != 0 || |pods.prev| != 0;
    }

    method GetNodeMetrics(names: seq<string>) returns (results: seq<NodeHistory.NodeMetrics>)
      requires Valid()
      ensures results == NodeHistory.Answers(NodesOf(history), names)
    {
      results := nodes.GetMetrics(names);
    }

    method GetPodMetrics(refs: seq<PodRef>) returns (results: seq<PodHistory.PodMetrics>)
      requires Valid()
      ensures var last, prev := PodHistory.LastAfter(PodsOf(history)), PodHistory.PrevAfter(pods.metricResolution, PodsOf(history));
        && |results| == |PodHistory.Served(last, prev, refs)|
        && forall i: nat :: i < |results| ==>
             var ref := PodHistory.Served(last, prev, refs)[i];
             && results[i].ref == ref && PodHistory.Servable(last, prev, ref)
             && PodHistory.Ordered(last[ref], prev[ref]) && PodHistory.IsAnswer(results[i], last[ref], prev[ref])
    {
      results := pods.GetMetrics(refs);
    }
  }
}
