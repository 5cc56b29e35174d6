/**
podStorage of pkg/storage/pod.go: two snapshots per container, restart
detection, the start point of fresh containers, and the answers read from them.
*/
module PodHistory {
  import opened Options
  import opened MetricsTypes
  import opened Rates
  import NodeHistory

  type Pods = map<PodRef, Containers>

  const FRESH_CONTAINER_MIN_RESOLUTION: nat := 10 * SECOND

  /** A container young enough to be rated from its start, and old enough for the rate to be accurate. */
  predicate Fresh(resolution: nat, point: MetricsPoint) {
    && point.startTime < point.timestamp
    && FRESH_CONTAINER_MIN_RESOLUTION <= Sub(point.timestamp, point.startTime) < resolution
  }

  /** The point a container had when it started. */
  function StartPoint(point: MetricsPoint): MetricsPoint {
    point.(timestamp := point.startTime, cpu := 0)
  }

  /** The previous point one Store keeps for a container with this new point. */
  function Carry(resolution: nat, point: MetricsPoint, name: string,
                 last: Option<Containers>, prev: Option<Containers>): Option<MetricsPoint> {
    if Fresh(resolution, point) then Some(StartPoint(point))
    else if last.None? || name !in last.value || last.value[name].timestamp <= point.startTime then None
    else if last.value[name].timestamp < point.timestamp then Some(last.value[name])
    else if prev.Some? && PointOf(prev.value, name).timestamp < point.timestamp then Some(PointOf(prev.value, name))
    else None
  }

  function CarryPod(resolution: nat, containers: Containers,
                    last: Option<Containers>, prev: Option<Containers>): Containers {
    map name | name in containers && Carry(resolution, containers[name], name, last, prev).Some? ::
      Carry(resolution, containers[name], name, last, prev).value
  }

  /** The next previous snapshot: pods with no previous point at all are left out. */
  function CarryAll(resolution: nat, pods: Pods, last: Pods, prev: Pods): Pods {
    NonEmpty(map ref | ref in pods :: CarryPod(resolution, pods[ref], Lookup(last, ref), Lookup(prev, ref)))
  }

  function NonEmpty(pods: Pods): Pods {
    map ref | ref in pods && pods[ref] != map[] :: pods[ref]
  }

  lemma CarryPodAdds(resolution: nat, containers: Containers, name: string, point: MetricsPoint,
                     last: Option<Containers>, prev: Option<Containers>)
    requires name !in containers
    ensures var carried := Carry(resolution, point, name, last, prev);
      var done := CarryPod(resolution, containers, last, prev);
      CarryPod(resolution, containers[name := point], last, prev)
      == if carried.Some? then done[name := carried.value] else done
  {
  }

  lemma CarryAllAdds(resolution: nat, pods: Pods, ref: PodRef, containers: Containers, last: Pods, prev: Pods)
    requires ref !in pods
    ensures var carried := CarryPod(resolution, containers, Lookup(last, ref), Lookup(prev, ref));
      var done := CarryAll(resolution, pods, last, prev);
      CarryAll(resolution, pods[ref := containers], last, prev)
      == if carried != map[] then done[ref := carried] else done
  {
    var carried := CarryPod(resolution, containers, Lookup(last, ref), Lookup(prev, ref));
    var all := map r | r in pods :: CarryPod(resolution, pods[r], Lookup(last, r), Lookup(prev, r));
    var longer := pods[ref := containers];
    var more := map r | r in longer :: CarryPod(resolution, longer[r], Lookup(last, r), Lookup(prev, r));
    assert more == all[ref := carried];
    NonEmptyAdds(all, ref, carried);
  }

  lemma NonEmptyAdds(pods: Pods, ref: PodRef, containers: Containers)
    requires ref !in pods
    ensures NonEmpty(pods[ref := containers])
            == if containers != map[] then NonEmpty(pods)[ref := containers] else NonEmpty(pods)
  {
  }

  function LastAfter(history: seq<Pods>): Pods {
    if history == [] then map[] else history[|history| - 1]
  }

  function PrevAfter(resolution: nat, history: seq<Pods>): Pods
    decreases |history|
  {
    if history == [] then map[]
    else
      var before := history[..|history| - 1];
      CarryAll(resolution, history[|history| - 1], LastAfter(before), PrevAfter(resolution, before))
  }

  // ----- What is true after any run of stores -----

  /** Every previous point belongs to a container of the last batch and is strictly older than its
      last point: no rate is ever taken over an empty or negative window. */
  lemma WindowsArePositive(resolution: nat, history: seq<Pods>, ref: PodRef, name: string)
    requires var prev := PrevAfter(resolution, history); ref in prev && name in prev[ref]
    ensures ref in LastAfter(history) && name in LastAfter(history)[ref]
    ensures PrevAfter(resolution, history)[ref][name].timestamp < LastAfter(history)[ref][name].timestamp
  {
  }

  predicate Follows(a: MetricsPoint, b: MetricsPoint) {
    a.timestamp <= b.timestamp && (a.timestamp == b.timestamp ==> a == b)
  }

  ghost predicate StartedBeforeMeasured(pods: Pods) {
    forall ref: PodRef, name: string :: ref in pods && name in pods[ref] ==>
      pods[ref][name].startTime <= pods[ref][name].timestamp
  }

  ghost predicate Continues(older: Pods, newer: Pods) {
    forall ref: PodRef, name: string :: ref in older && ref in newer && name in older[ref] && name in newer[ref] ==>
      Follows(older[ref][name], newer[ref][name])
  }

  /** A pod is kept in the previous snapshot only with at least one previous point. */
  lemma KeptPodsHavePoints(resolution: nat, history: seq<Pods>, ref: PodRef)
    requires ref in PrevAfter(resolution, history)
    ensures PrevAfter(resolution, history)[ref] != map[]
  {
  }

  /** From one batch to the next a container's timestamp does not go down, the same timestamp means the
      same point, and no container starts after it was measured. */
  ghost predicate Steady(history: seq<Pods>)
    decreases |history|
  {
    history == [] ||
    var before := history[..|history| - 1];
    var pods := history[|history| - 1];
    Steady(before) && StartedBeforeMeasured(pods) && Continues(LastAfter(before), pods)
  }

  /** The span from p to the point lies within one life of the container. */
  predicate WithinOneLife(p: MetricsPoint, point: MetricsPoint) {
    p == ZERO_POINT || point.startTime <= p.timestamp < point.timestamp
  }

  /** No rate spans a restart: the previous point is not older than the container's start, unless it is
      the zero point carried from a missing entry. */
  lemma {:induction false} NoWindowSpansRestart(resolution: nat, history: seq<Pods>, ref: PodRef, name: string)
    requires Steady(history)
    requires var prev := PrevAfter(resolution, history); ref in prev && name in prev[ref]
    ensures ref in LastAfter(history) && name in LastAfter(history)[ref]
    ensures WithinOneLife(PrevAfter(resolution, history)[ref][name], LastAfter(history)[ref][name])
    decreases |history|
  {
    WindowsArePositive(resolution, history, ref, name);
    var before := history[..|history| - 1];
    var pods := history[|history| - 1];
    var prevPods: Pods := PrevAfter(resolution, before);
    if ref in prevPods && name in prevPods[ref] {
      NoWindowSpansRestart(resolution, before, ref, name);
    }
    CarryKeepsLife(resolution, pods[ref][name], name, Lookup(LastAfter(before), ref), Lookup(prevPods, ref));
  }

  lemma CarryKeepsLife(resolution: nat, point: MetricsPoint, name: string,
                       last: Option<Containers>, prev: Option<Containers>)
    requires last.Some? && name in last.value ==> Follows(last.value[name], point)
    requires last.Some? && name in last.value && prev.Some? && name in prev.value ==>
               WithinOneLife(prev.value[name], last.value[name])
    requires prev.Some? && name in prev.value ==> last.Some? && name in last.value
    ensures var p := Carry(resolution, point, name, last, prev); p.Some? ==> WithinOneLife(p.value, point)
  {
  }

  /** The points of a container in the unbroken run of batches that ends the history and contains it. */
  function PointRun(history: seq<Pods>, ref: PodRef, name: string): seq<MetricsPoint>
    decreases |history|
  {
    var pods: Pods := LastAfter(history);
    if history == [] || ref !in pods || name !in pods[ref] then []
    else PointRun(history[..|history| - 1], ref, name) + [pods[ref][name]]
  }

  /** The newest point of a run that differs from the last one. */
  function NewestOther(run: seq<MetricsPoint>): Option<MetricsPoint>
    decreases |run|
  {
    if |run| < 2 then None
    else if run[|run| - 2] != run[|run| - 1] then Some(run[|run| - 2])
    else NewestOther(run[..|run| - 1])
  }

  /** What a run alone says the previous point should be. */
  function Expected(resolution: nat, run: seq<MetricsPoint>): Option<MetricsPoint> {
    if run == [] then None
    else
      var point := run[|run| - 1];
      if Fresh(resolution, point) then Some(StartPoint(point))
      else
        match NewestOther(run)
        case None => None
        case Some(other) => if point.startTime < other.timestamp then Some(other) else None
  }

  function FindPoint(pods: Pods, ref: PodRef, name: string): Option<MetricsPoint> {
    if ref in pods && name in pods[ref] then Some(pods[ref][name]) else None
  }

  /** In a steady history the two snapshots hold what the whole history says: the start of a fresh
      container, otherwise its newest different point if that is no older than its start.  Where the
      history says there is none, none is kept, except for the zero point. */
  lemma {:induction false} PreviousIsExpected(resolution: nat, history: seq<Pods>, ref: PodRef, name: string)
    requires Steady(history)
    ensures var run := PointRun(history, ref, name);
      && FindPoint(LastAfter(history), ref, name) == (if run == [] then None else Some(run[|run| - 1]))
      && OtherIsOlder(run)
      && IsExpected(FindPoint(PrevAfter(resolution, history), ref, name), Expected(resolution, run))
    decreases |history|
  {
    if history != [] && ref in history[|history| - 1] && name in history[|history| - 1][ref] {
      var before := history[..|history| - 1];
      var pods: Pods := history[|history| - 1];
      var lastPods: Pods := LastAfter(before);
      var prevPods: Pods := PrevAfter(resolution, before);
      PreviousIsExpected(resolution, before, ref, name);
      CarryAt(resolution, pods, lastPods, prevPods, ref, name);
      CarryIsExpected(resolution, PointRun(before, ref, name), pods[ref][name], name, Lookup(lastPods, ref), Lookup(prevPods, ref));
    }
  }

  lemma CarryAt(resolution: nat, pods: Pods, last: Pods, prev: Pods, ref: PodRef, name: string)
    requires ref in pods && name in pods[ref]
    ensures FindPoint(CarryAll(resolution, pods, last, prev), ref, name)
            == Carry(resolution, pods[ref][name], name, Lookup(last, ref), Lookup(prev, ref))
  {
    var carried := CarryPod(resolution, pods[ref], Lookup(last, ref), Lookup(prev, ref));
    assert name in carried ==> carried != map[];
  }

  predicate OtherIsOlder(run: seq<MetricsPoint>) {
    NewestOther(run).Some? ==> NewestOther(run).value.timestamp < run[|run| - 1].timestamp
  }

  predicate IsExpected(kept: Option<MetricsPoint>, expected: Option<MetricsPoint>) {
    kept == expected || (expected.None? && kept == Some(ZERO_POINT))
  }

  lemma CarryIsExpected(resolution: nat, run: seq<MetricsPoint>, point: MetricsPoint, name: string,
                        last: Option<Containers>, prev: Option<Containers>)
    requires if run == [] then last.None? || name !in last.value
             else last.Some? && name in last.value && last.value[name] == run[|run| - 1] && Follows(run[|run| - 1], point)
    requires IsExpected(if prev.Some? && name in prev.value then Some(prev.value[name]) else None, Expected(resolution, run))
    requires OtherIsOlder(run)
    ensures IsExpected(Carry(resolution, point, name, last, prev), Expected(resolution, run + [point]))
    ensures OtherIsOlder(run + [point])
  {
    var longer := run + [point];
    assert longer[..|longer| - 1] == run;
    if run != [] {
      assert longer[|longer| - 2] == run[|run| - 1];
    }
  }

  /** A container at least ten seconds old and younger than the resolution is rated over its whole life,
      from a CPU value of zero; whatever the history, its window is its age. */
  lemma FreshIsRatedFromStart(resolution: nat, history: seq<Pods>, ref: PodRef, name: string)
    requires ref in LastAfter(history) && name in LastAfter(history)[ref]
    requires resolution < 0x8000_0000_0000_0000
    requires var point := LastAfter(history)[ref][name];
      10_000_000_000 <= point.timestamp - point.startTime < resolution
    ensures var prev, point := PrevAfter(resolution, history), LastAfter(history)[ref][name];
      && ref in prev && name in prev[ref] && prev[ref][name].timestamp == point.startTime && prev[ref][name].cpu == 0
      && Sub(point.timestamp, prev[ref][name].timestamp) == point.timestamp - point.startTime
  {
    var before := history[..|history| - 1];
    var point := LastAfter(history)[ref][name];
    SubIsDifference(point.timestamp, point.startTime);
    CarryAt(resolution, history[|history| - 1], LastAfter(before), PrevAfter(resolution, before), ref, name);
  }

  /** Any other container is not: its previous point is an earlier point, the zero point or none. */
  lemma OldIsNotRatedFromStart(resolution: nat, history: seq<Pods>, ref: PodRef, name: string)
    requires ref in LastAfter(history) && name in LastAfter(history)[ref]
    requires var point := LastAfter(history)[ref][name];
      point.timestamp < point.startTime + 10_000_000_000 || resolution <= point.timestamp - point.startTime
    requires resolution < 0x8000_0000_0000_0000
    ensures var kept := FindPoint(PrevAfter(resolution, history), ref, name);
      var before := history[..|history| - 1];
      || kept.None? || kept == Some(ZERO_POINT)
      || kept == FindPoint(LastAfter(before), ref, name) || kept == FindPoint(PrevAfter(resolution, before), ref, name)
  {
    var before := history[..|history| - 1];
    var point := LastAfter(history)[ref][name];
    if point.startTime <= point.timestamp {
      SubIsDifference(point.timestamp, point.startTime);
    }
    CarryAt(resolution, history[|history| - 1], LastAfter(before), PrevAfter(resolution, before), ref, name);
  }

  // ----- Points in any order -----

  /** Every point of the run is settled and started before the point ahead of it was measured. */
  ghost predicate OneLife(resolution: nat, run: seq<MetricsPoint>) {
    && (forall i: nat :: i < |run| ==> !Fresh(resolution, run[i]))
    && (forall i: nat :: 0 < i < |run| ==> run[i].startTime < run[i - 1].timestamp)
  }

  lemma OneLifePrefix(resolution: nat, run: seq<MetricsPoint>, point: MetricsPoint)
    requires OneLife(resolution, run + [point])
    ensures OneLife(resolution, run) && !Fresh(resolution, point)
    ensures run != [] ==> point.startTime < run[|run| - 1].timestamp
  {
    var longer := run + [point];
    assert !Fresh(resolution, longer[|run|]);
    assert run != [] ==> longer[|run|].startTime < longer[|run| - 1].timestamp;
    forall i: nat | i < |run|
      ensures !Fresh(resolution, run[i]) && (0 < i ==> run[i].startTime < run[i - 1].timestamp)
    {
      assert longer[i] == run[i] && !Fresh(resolution, longer[i]);
      assert 0 < i ==> longer[i - 1] == run[i - 1] && longer[i].startTime < longer[i - 1].timestamp;
    }
  }

  /** Whatever the order of the timestamps, within one life a container's previous point is the one a node
      with the same points would have, except for the zero point where there is none. */
  lemma {:induction false} OneLifeIsLikeNodes(resolution: nat, history: seq<Pods>, ref: PodRef, name: string)
    requires OneLife(resolution, PointRun(history, ref, name))
    ensures var run := PointRun(history, ref, name);
      && FindPoint(LastAfter(history), ref, name) == NodeHistory.LastPoint(run)
      && IsExpected(FindPoint(PrevAfter(resolution, history), ref, name), NodeHistory.PreviousPoint(run))
    decreases |history|
  {
    if history != [] && ref in history[|history| - 1] && name in history[|history| - 1][ref] {
      var before := history[..|history| - 1];
      var pods: Pods := history[|history| - 1];
      var run, point := PointRun(before, ref, name), pods[ref][name];
      var lastPods: Pods := LastAfter(before);
      var prevPods: Pods := PrevAfter(resolution, before);
      OneLifePrefix(resolution, run, point);
      OneLifeIsLikeNodes(resolution, before, ref, name);
      CarryAt(resolution, pods, lastPods, prevPods, ref, name);
      NodeHistory.CarryIsPrevious(run, point);
      CarryIsLikeNodes(resolution, run, point, name, Lookup(lastPods, ref), Lookup(prevPods, ref));
    }
  }

  lemma CarryIsLikeNodes(resolution: nat, run: seq<MetricsPoint>, point: MetricsPoint, name: string,
                         last: Option<Containers>, prev: Option<Containers>)
    requires !Fresh(resolution, point) && (run != [] ==> point.startTime < run[|run| - 1].timestamp)
    requires (if last.Some? && name in last.value then Some(last.value[name]) else None) == NodeHistory.LastPoint(run)
    requires IsExpected(if prev.Some? && name in prev.value then Some(prev.value[name]) else None, NodeHistory.PreviousPoint(run))
    ensures IsExpected(Carry(resolution, point, name, last, prev),
                       NodeHistory.Carry(NodeHistory.LastPoint(run), NodeHistory.PreviousPoint(run), point))
  {
  }

  // ----- The zero point, exactly -----

  /** The last point came twice in a row, and the container was running by then. */
  predicate RepeatsLast(run: seq<MetricsPoint>) {
    |run| > 1 && run[|run| - 1] == run[|run| - 2] && run[|run| - 1].startTime < run[|run| - 1].timestamp
  }

  /** What is expected, or the zero point where nothing is, the last point was repeated, and the pod had
      some previous point before. */
  function ExpectedOrZero(resolution: nat, run: seq<MetricsPoint>, podKept: bool): Option<MetricsPoint> {
    var expected := Expected(resolution, run);
    if expected.None? && RepeatsLast(run) && podKept then Some(ZERO_POINT) else expected
  }

  /** Some container of the pod has a previous point, said of the history alone. */
  ghost predicate PodKept(resolution: nat, history: seq<Pods>, ref: PodRef)
    decreases |history|
  {
    history != [] &&
    exists name: string ::
      var run := PointRun(history, ref, name);
      Expected(resolution, run).Some? || (RepeatsLast(run) && PodKept(resolution, history[..|history| - 1], ref))
  }

  lemma CarryIsExact(resolution: nat, run: seq<MetricsPoint>, point: MetricsPoint, name: string,
                     last: Option<Containers>, prev: Option<Containers>)
    requires if run == [] then last.None? || name !in last.value
             else last.Some? && name in last.value && last.value[name] == run[|run| - 1] && Follows(run[|run| - 1], point)
    requires IsExpected(if prev.Some? && name in prev.value then Some(prev.value[name]) else None, Expected(resolution, run))
    requires OtherIsOlder(run) && point.startTime <= point.timestamp
    ensures Carry(resolution, point, name, last, prev) == ExpectedOrZero(resolution, run + [point], prev.Some?)
  {
    var longer := run + [point];
    assert longer[..|longer| - 1] == run;
    if run != [] {
      assert longer[|longer| - 2] == run[|run| - 1];
    }
  }

  lemma PreviousIsKept(resolution: nat, history: seq<Pods>, ref: PodRef, name: string)
    requires Steady(history) && history != []
    ensures FindPoint(PrevAfter(resolution, history), ref, name)
            == ExpectedOrZero(resolution, PointRun(history, ref, name), ref in PrevAfter(resolution, history[..|history| - 1]))
  {
    var before := history[..|history| - 1];
    var pods: Pods := history[|history| - 1];
    if ref in pods && name in pods[ref] {
      var lastPods: Pods := LastAfter(before);
      var prevPods: Pods := PrevAfter(resolution, before);
      PreviousIsExpected(resolution, before, ref, name);
      CarryAt(resolution, pods, lastPods, prevPods, ref, name);
      CarryIsExact(resolution, PointRun(before, ref, name), pods[ref][name], name, Lookup(lastPods, ref), Lookup(prevPods, ref));
    }
  }

  lemma {:induction false} PodIsKeptExactly(resolution: nat, history: seq<Pods>, ref: PodRef)
    requires Steady(history)
    ensures ref in PrevAfter(resolution, history) <==> PodKept(resolution, history, ref)
    decreases |history|
  {
    if history != [] {
      PodIsKeptExactly(resolution, history[..|history| - 1], ref);
      var prev: Pods := PrevAfter(resolution, history);
      forall name: string
        ensures FindPoint(prev, ref, name)
                == ExpectedOrZero(resolution, PointRun(history, ref, name), PodKept(resolution, history[..|history| - 1], ref))
      {
        PreviousIsKept(resolution, history, ref, name);
      }
      if ref in prev {
        KeptPodsHavePoints(resolution, history, ref);
        assert |prev[ref]| != 0 && prev[ref].Keys != {};
        var name: string :| name in prev[ref].Keys;
        assert FindPoint(prev, ref, name).Some?;
      }
    }
  }

  /** After any steady history the previous snapshot is exactly this function of the history. */
  lemma PreviousIsExact(resolution: nat, history: seq<Pods>, ref: PodRef, name: string)
    requires Steady(history) && history != []
    ensures FindPoint(PrevAfter(resolution, history), ref, name)
            == ExpectedOrZero(resolution, PointRun(history, ref, name), PodKept(resolution, history[..|history| - 1], ref))
  {
    PreviousIsKept(resolution, history, ref, name);
    PodIsKeptExactly(resolution, history[..|history| - 1], ref);
  }

  /** The zero point is stored as a container's previous point exactly when a fresh container started at
      time zero and uses no memory, or the run of its points gives none, its last point came twice, and its
      pod was kept before that. */
  lemma ZeroIsStoredExactly(resolution: nat, history: seq<Pods>, ref: PodRef, name: string)
    requires Steady(history) && history != []
    ensures var run := PointRun(history, ref, name);
      FindPoint(PrevAfter(resolution, history), ref, name) == Some(ZERO_POINT)
      <==> || (run != [] && Fresh(resolution, run[|run| - 1]) && StartPoint(run[|run| - 1]) == ZERO_POINT)
           || (Expected(resolution, run).None? && RepeatsLast(run)
               && PodKept(resolution, history[..|history| - 1], ref))
  {
    PreviousIsExact(resolution, history, ref, name);
  }

  /** A container measured before, and old enough to be rated from an earlier measurement. */
  predicate Settled(resolution: nat, point: MetricsPoint) {
    point.startTime < point.timestamp && !Fresh(resolution, point)
  }

  /** Three batches: the container "b" joins a pod in the second, and its first point comes again in the third. */
  function JoinedLate(ref: PodRef, a1: MetricsPoint, a2: MetricsPoint, a3: MetricsPoint, b: MetricsPoint): seq<Pods> {
    [map[ref := map["a" := a1]]] + [map[ref := map["a" := a2, "b" := b]]] + [map[ref := map["a" := a3, "b" := b]]]
  }

  /** The zero point is reached by steady histories. */
  lemma ZeroPointHappens(resolution: nat, ref: PodRef, a1: MetricsPoint, a2: MetricsPoint, a3: MetricsPoint, b: MetricsPoint)
    requires Settled(resolution, a1) && Settled(resolution, a2) && Settled(resolution, a3) && Settled(resolution, b)
    requires a2.startTime < a1.timestamp < a2.timestamp < a3.timestamp
    ensures var history := JoinedLate(ref, a1, a2, a3, b); var prev := PrevAfter(resolution, history);
      Steady(history) && ref in prev && "b" in prev[ref] && prev[ref]["b"] == ZERO_POINT
  {
    var c1: Containers, c2: Containers := map["a" := a1], map["a" := a2, "b" := b];
    var c3: Containers := map["a" := a3, "b" := b];
    SteadyJoined(ref, c1, c2, c3);
    PrevOfJoined(resolution, ref, c1, c2, c3, a1, a2, b);
  }

  ghost predicate SteadyContainers(older: Containers, newer: Containers) {
    forall name :: name in newer ==>
      newer[name].startTime <= newer[name].timestamp && (name in older ==> Follows(older[name], newer[name]))
  }

  lemma SteadyJoined(ref: PodRef, c1: Containers, c2: Containers, c3: Containers)
    requires SteadyContainers(map[], c1) && SteadyContainers(c1, c2) && SteadyContainers(c2, c3)
    ensures Steady([map[ref := c1]] + [map[ref := c2]] + [map[ref := c3]])
  {
    var h1: Pods, h2: Pods, h3: Pods := map[ref := c1], map[ref := c2], map[ref := c3];
    SteadySnoc([], h1);
    assert [] + [h1] == [h1];
    SteadySnoc([h1], h2);
    SteadySnoc([h1] + [h2], h3);
  }

  lemma PrevOfJoined(resolution: nat, ref: PodRef, c1: Containers, c2: Containers, c3: Containers,
                     a1: MetricsPoint, a2: MetricsPoint, b: MetricsPoint)
    requires c1 == map["a" := a1] && c2 == map["a" := a2, "b" := b] && "b" in c3 && c3["b"] == b
    requires Settled(resolution, a1) && Settled(resolution, a2) && Settled(resolution, b)
    requires a2.startTime < a1.timestamp < a2.timestamp
    ensures var prev := PrevAfter(resolution, [map[ref := c1]] + [map[ref := c2]] + [map[ref := c3]]);
      ref in prev && "b" in prev[ref] && prev[ref]["b"] == ZERO_POINT
  {
    PrevOfOne(resolution, [], ref, c1, None, None);
    assert [] + [map[ref := c1]] == [map[ref := c1]];
    assert CarryPod(resolution, c1, None, None) == map[];
    PrevOfOne(resolution, [map[ref := c1]], ref, c2, Some(c1), None);
    CarriedOnly(resolution, c2, Some(c1), a1, a2, b);
    assert "a" in CarryPod(resolution, c2, Some(c1), None);
    PrevOfOne(resolution, [map[ref := c1]] + [map[ref := c2]], ref, c3, Some(c2), Some(map["a" := a1]));
    CarriedZero(resolution, c3, Some(c2), Some(map["a" := a1]), b);
  }

  lemma CarriedOnly(resolution: nat, containers: Containers, last: Option<Containers>,
                    a1: MetricsPoint, a2: MetricsPoint, b: MetricsPoint)
    requires containers == map["a" := a2, "b" := b] && last == Some(map["a" := a1])
    requires Settled(resolution, a2) && Settled(resolution, b) && a2.startTime < a1.timestamp < a2.timestamp
    ensures CarryPod(resolution, containers, last, None) == map["a" := a1]
  {
    assert Carry(resolution, a2, "a", last, None) == Some(a1);
    assert Carry(resolution, b, "b", last, None) == None;
  }

  lemma CarriedZero(resolution: nat, containers: Containers, last: Option<Containers>, prev: Option<Containers>, b: MetricsPoint)
    requires last.Some? && "b" in last.value && last.value["b"] == b && prev.Some? && "b" !in prev.value
    requires "b" in containers && containers["b"] == b && Settled(resolution, b)
    ensures var carried := CarryPod(resolution, containers, last, prev); "b" in carried && carried["b"] == ZERO_POINT
  {
    assert Carry(resolution, b, "b", last, prev) == Some(ZERO_POINT);
  }

  /** One more batch, with only this pod in it. */
  lemma PrevOfOne(resolution: nat, before: seq<Pods>, ref: PodRef, containers: Containers,
                  last: Option<Containers>, prev: Option<Containers>)
    requires last == Lookup(LastAfter(before), ref) && prev == Lookup(PrevAfter(resolution, before), ref)
    ensures var after := before + [map[ref := containers]];
      var carried := CarryPod(resolution, containers, last, prev);
      && Lookup(LastAfter(after), ref) == Some(containers)
      && Lookup(PrevAfter(resolution, after), ref) == if carried == map[] then None else Some(carried)
  {
    var pods: Pods := map[ref := containers];
    assert (before + [pods])[..|before|] == before;
    CarryAllAdds(resolution, map[], ref, containers, LastAfter(before), PrevAfter(resolution, before));
  }

  lemma SteadySnoc(before: seq<Pods>, pods: Pods)
    ensures Steady(before + [pods])
            <==> Steady(before) && StartedBeforeMeasured(pods) && Continues(LastAfter(before), pods)
  {
    assert (before + [pods])[..|before|] == before;
  }

  // ----- Answers -----

  datatype ContainerMetrics = ContainerMetrics(name: string, cpu: Quantity, memory: Quantity)

  datatype PodMetrics = PodMetrics(ref: PodRef, timestamp: Time, window: nat, containers: seq<ContainerMetrics>)

  /** A pod is served when both snapshots have it and every last container has a previous point. */
  predicate Servable(last: Pods, prev: Pods, ref: PodRef) {
    ref in last && ref in prev && last[ref].Keys <= prev[ref].Keys
  }

  function Served(last: Pods, prev: Pods, refs: seq<PodRef>): seq<PodRef>
    decreases |refs|
  {
    if refs == [] then []
    else
      var before := Served(last, prev, refs[..|refs| - 1]);
      if Servable(last, prev, refs[|refs| - 1]) then before + [refs[|refs| - 1]] else before
  }

  /** The requested pods that can be served, in the order asked. */
  lemma {:induction false} ServedIsFilter(last: Pods, prev: Pods, a: seq<PodRef>, b: seq<PodRef>)
    ensures Served(last, prev, a + b) == Served(last, prev, a) + Served(last, prev, b)
    decreases |b|
  {
    if b == [] {
      assert a + b == a;
    } else {
      var n := |b| - 1;
      assert (a + b)[..|a + b| - 1] == a + b[..n];
      ServedIsFilter(last, prev, a, b[..n]);
    }
  }

  lemma ServedOne(last: Pods, prev: Pods, ref: PodRef)
    ensures Served(last, prev, []) == []
    ensures Served(last, prev, [ref])
            == if ref in last && ref in prev && forall name :: name in last[ref] ==> name in prev[ref] then [ref] else []
  {
    assert [ref][..0] == [];
  }

  /** Every previous point there is, is older than the last one. */
  ghost predicate Ordered(last: Containers, prev: Containers) {
    forall name: string :: name in last && name in prev ==> prev[name].timestamp < last[name].timestamp
  }

  /** The containers with a previous point whose cumulative CPU value did not go down. */
  function Reported(last: Containers, prev: Containers): set<string> {
    set name | name in last && name in prev && prev[name].cpu <= last[name].cpu
  }

  function Rated(last: Containers, prev: Containers, name: string): ContainerMetrics
    requires Ordered(last, prev) && name in Reported(last, prev)
  {
    var usage := ResourceUsage(last[name], prev[name]).value;
    ContainerMetrics(name, usage.cpu, usage.memory)
  }

  function Window(last: Containers, prev: Containers, name: string): nat
    requires Ordered(last, prev) && name in last && name in prev
  {
    Sub(last[name].timestamp, prev[name].timestamp)
  }

  /** The listed containers are exactly these, each once, with its own rate. */
  ghost predicate Lists(cms: seq<ContainerMetrics>, names: set<string>, last: Containers, prev: Containers)
    requires Ordered(last, prev) && names <= Reported(last, prev)
  {
    && (forall i: nat :: i < |cms| ==> cms[i].name in names && cms[i] == Rated(last, prev, cms[i].name))
    && (forall i: nat, j: nat :: i < j < |cms| ==> cms[i].name != cms[j].name)
    && (forall name :: name in names ==> exists i: nat :: i < |cms| && cms[i].name == name)
  }

  /** The earliest timestamp among these containers, with the window of one that has it. */
  ghost predicate Earliest(timestamp: Time, window: nat, names: set<string>, last: Containers, prev: Containers)
    requires Ordered(last, prev) && names <= Reported(last, prev)
  {
    if names == {} then timestamp == 0 && window == 0
    else
      && (exists name :: name in names && timestamp == last[name].timestamp && window == Window(last, prev, name))
      && (forall name :: name in names ==> timestamp <= last[name].timestamp)
  }

  /** What an answer must be, whatever the order in which the containers are visited. */
  ghost predicate IsAnswer(m: PodMetrics, last: Containers, prev: Containers)
    requires Ordered(last, prev)
  {
    && Lists(m.containers, Reported(last, prev), last, prev)
    && Earliest(m.timestamp, m.window, Reported(last, prev), last, prev)
  }

  ghost predicate StoredWell(last: Pods, prev: Pods) {
    forall ref: PodRef :: ref in last && ref in prev ==> Ordered(last[ref], prev[ref])
  }

  lemma StoresWell(resolution: nat, history: seq<Pods>)
    ensures StoredWell(LastAfter(history), PrevAfter(resolution, history))
  {
    var last: Pods := LastAfter(history);
    var prev: Pods := PrevAfter(resolution, history);
    forall ref: PodRef, name: string | ref in last && ref in prev && name in last[ref] && name in prev[ref]
      ensures prev[ref][name].timestamp < last[ref][name].timestamp
    {
      WindowsArePositive(resolution, history, ref, name);
    }
  }

  /** Two answers for the same pod differ only in the order of the containers and in the window among
      containers that share the earliest timestamp. */
  lemma AnswersAgree(a: PodMetrics, b: PodMetrics, last: Containers, prev: Containers)
    requires Ordered(last, prev) && IsAnswer(a, last, prev) && IsAnswer(b, last, prev)
    ensures a.timestamp == b.timestamp && |a.containers| == |b.containers|
    ensures forall i: nat :: i < |a.containers| ==> a.containers[i] in b.containers
  {
    forall i: nat | i < |a.containers|
      ensures a.containers[i] in b.containers
    {
      var name := a.containers[i].name;
      assert name in Reported(last, prev);
      var j: nat :| j < |b.containers| && b.containers[j].name == name;
      assert b.containers[j] == a.containers[i];
    }
    NamesCounted(a.containers, Reported(last, prev), last, prev);
    NamesCounted(b.containers, Reported(last, prev), last, prev);
  }

  lemma {:induction false} NamesCounted(cms: seq<ContainerMetrics>, names: set<string>, last: Containers, prev: Containers)
    requires Ordered(last, prev) && names <= Reported(last, prev) && Lists(cms, names, last, prev)
    ensures |cms| == |names|
    decreases |cms|
  {
    if cms == [] {
      assert names == {};
    } else {
      var n := |cms| - 1;
      var fewer := names - {cms[n].name};
      forall name | name in fewer
        ensures exists i: nat :: i < |cms[..n]| && cms[..n][i].name == name
      {
        var i: nat :| i < |cms| && cms[i].name == name;
        assert cms[..n][i].name == name;
      }
      NamesCounted(cms[..n], fewer, last, prev);
      assert names == fewer + {cms[n].name};
    }
  }
}

module PodStore {
  import opened Options
  import opened MetricsTypes
  import opened Rates
  import opened PodHistory

  class PodStorage {
    var last: Pods
    var prev: Pods
    const metricResolution: nat
    ghost var history: seq<Pods>

    ghost predicate Valid()
      reads this
    {
      last == LastAfter(history) && prev == PrevAfter(metricResolution, history)
    }

    constructor (resolution: nat)
      ensures Valid() && history == [] && metricResolution == resolution
    {
      metricResolution := resolution;
      last, prev, history := map[], map[], [];
    }

    method Store(batch: Batch)
      requires Valid()
      modifies this
      ensures Valid() && history == old(history) + [batch.pods]
    {
      var lastPods: Pods := map[];
      var prevPods: Pods := map[];
      var todo := batch.pods.Keys;
      while todo != {}
        invariant todo <= batch.pods.Keys
        invariant last == old(last) && prev == old(prev) && history == old(history)
        invariant lastPods.Keys == batch.pods.Keys - todo
        invariant forall ref :: ref in lastPods ==> lastPods[ref] == batch.pods[ref]
        invariant prevPods == CarryAll(metricResolution, lastPods, last, prev)
      {
        var ref :| ref in todo;
        var newPod := batch.pods[ref];
        var newLastPod, newPrevPod := StorePod(ref, newPod);
        CarryAllAdds(metricResolution, lastPods, ref, newLastPod, last, prev);
        if newPrevPod != map[] {
          prevPods := prevPods[ref := newPrevPod];
        }
        lastPods := lastPods[ref := newLastPod];
        todo := todo - {ref};
      }
      ghost var longer := history + [batch.pods];
      assert longer[..|longer| - 1] == history;
      assert lastPods == batch.pods;
      assert prevPods == CarryAll(metricResolution, batch.pods, last, prev);
      last, prev, history := lastPods, prevPods, longer;
    }

    /** The containers of one pod. */
    method StorePod(ref: PodRef, newPod: Containers) returns (newLastPod: Containers, newPrevPod: Containers)
      ensures newLastPod == newPod
      ensures newPrevPod == CarryPod(metricResolution, newPod, Lookup(last, ref), Lookup(prev, ref))
    {
      newLastPod, newPrevPod := map[], map[];
      var todo := newPod.Keys;
      while todo != {}
        invariant todo <= newPod.Keys
        invariant newLastPod.Keys == newPod.Keys - todo
        invariant forall name :: name in newLastPod ==> newLastPod[name] == newPod[name]
        invariant newPrevPod == CarryPod(metricResolution, newLastPod, Lookup(last, ref), Lookup(prev, ref))
      {
        var name :| name in todo;
        var newPoint := newPod[name];
        todo := todo - {name};
        CarryPodAdds(metricResolution, newLastPod, name, newPoint, Lookup(last, ref), Lookup(prev, ref));
        newLastPod := newLastPod[name := newPoint];
        if newPoint.startTime < newPoint.timestamp
           && Sub(newPoint.timestamp, newPoint.startTime) < metricResolution
           && Sub(newPoint.timestamp, newPoint.startTime) >= FRESH_CONTAINER_MIN_RESOLUTION {
          var copied := newPoint.(timestamp := newPoint.startTime).(cpu := 0);
          newPrevPod := newPrevPod[name := copied];
        } else if ref in last {
          var lastPod := last[ref];
          if name in lastPod && newPoint.startTime < lastPod[name].timestamp {
            var lastContainer := lastPod[name];
            if lastContainer.timestamp < newPoint.timestamp {
              newPrevPod := newPrevPod[name := lastContainer];
            } else if ref in prev {
              var prevContainer := PointOf(prev[ref], name);
              if prevContainer.timestamp < newPoint.timestamp {
                newPrevPod := newPrevPod[name := prevContainer];
              }
            }
          }
        }
      }
    }

    method GetMetrics(refs: seq<PodRef>) returns (results: seq<PodMetrics>)
      requires Valid()
      ensures |results| == |Served(last, prev, refs)|
      ensures forall i: nat :: i < |results| ==>
        && results[i].ref == Served(last, prev, refs)[i] && Servable(last, prev, results[i].ref)
        && Ordered(last[results[i].ref], prev[results[i].ref])
        && IsAnswer(results[i], last[results[i].ref], prev[results[i].ref])
    {
      StoresWell(metricResolution, history);
      results := [];
      for n := 0 to |refs|
        invariant |results| == |Served(last, prev, refs[..n])|
        invariant forall i: nat :: i < |results| ==>
          && results[i].ref == Served(last, prev, refs[..n])[i] && Servable(last, prev, results[i].ref)
          && Ordered(last[results[i].ref], prev[results[i].ref])
          && IsAnswer(results[i], last[results[i].ref], prev[results[i].ref])
      {
        var ref := refs[n];
        assert refs[..n + 1][..n] == refs[..n];
        if ref in last && ref in prev {
          var present, metrics := AnswerPod(ref, last[ref], prev[ref]);
          if present {
            results := results + [metrics];
          }
        }
      }
      assert refs[..|refs|] == refs;
    }
  }

  /** The inner loop of GetMetrics, over the containers in any order. */
  method AnswerPod(ref: PodRef, lastPod: Containers, prevPod: Containers) returns (present: bool, metrics: PodMetrics)
    requires Ordered(lastPod, prevPod)
    ensures present <==> lastPod.Keys <= prevPod.Keys
    ensures present ==> metrics.ref == ref && IsAnswer(metrics, lastPod, prevPod)
  {
    var cms: seq<ContainerMetrics> := [];
    var timestamp, window := 0, 0;
    var todo := lastPod.Keys;
    present := true;
    while todo != {}
      invariant todo <= lastPod.Keys && lastPod.Keys - todo <= prevPod.Keys
      invariant Lists(cms, Reported(lastPod, prevPod) - todo, lastPod, prevPod)
      invariant Earliest(timestamp, window, Reported(lastPod, prevPod) - todo, lastPod, prevPod)
    {
      var name :| name in todo;
      if name !in prevPod {
        present := false;
        metrics := PodMetrics(ref, timestamp, window, cms);
        return;
      }
      var usage := ResourceUsage(lastPod[name], prevPod[name]);
      ghost var visited := Reported(lastPod, prevPod) - todo;
      todo := todo - {name};
      if usage.Some? {
        assert Reported(lastPod, prevPod) - todo == visited + {name};
        ListsOneMore(cms, visited, name, lastPod, prevPod);
        cms := cms + [ContainerMetrics(name, usage.value.cpu, usage.value.memory)];
        EarliestOfOneMore(timestamp, window, visited, name, lastPod, prevPod);
        if timestamp == 0 || usage.value.timestamp < timestamp {
          timestamp, window := usage.value.timestamp, usage.value.window;
        }
      } else {
        assert Reported(lastPod, prevPod) - todo == visited;
      }
    }
    assert Reported(lastPod, prevPod) - todo == Reported(lastPod, prevPod);
    metrics := PodMetrics(ref, timestamp, window, cms);
  }

  lemma ListsOneMore(cms: seq<ContainerMetrics>, names: set<string>, name: string, last: Containers, prev: Containers)
    requires Ordered(last, prev) && names + {name} <= Reported(last, prev) && name !in names
    requires Lists(cms, names, last, prev)
    ensures Lists(cms + [Rated(last, prev, name)], names + {name}, last, prev)
  {
    var longer := cms + [Rated(last, prev, name)];
    forall other | other in names + {name}
      ensures exists i: nat :: i < |longer| && longer[i].name == other
    {
      if other == name {
        assert longer[|cms|].name == name;
      } else {
        var i: nat :| i < |cms| && cms[i].name == other;
        assert longer[i].name == other;
      }
    }
  }

  lemma EarliestOfOneMore(timestamp: Time, window: nat, names: set<string>, name: string,
                          last: Containers, prev: Containers)
    requires Ordered(last, prev) && names + {name} <= Reported(last, prev)
    requires Earliest(timestamp, window, names, last, prev)
    ensures if timestamp == 0 || last[name].timestamp < timestamp
            then Earliest(last[name].timestamp, Window(last, prev, name), names + {name}, last, prev)
            else Earliest(timestamp, window, names + {name}, last, prev)
  {
    assert name in names + {name};
  }
}
