/** decodeBatch of pkg/scraper/client/resource/decode.go, from the series lines the text parser yields. */
module Decode {
  import opened Options
  import opened MetricsTypes
  import opened Labels

  /** What decoding depends on besides the text: the time of the scrape, and what this machine's
      conversions give for a value out of range, which Go leaves open. */
  datatype Env = Env(defaultTimestamp: int64, openUint64: real -> uint64, openInt64: real -> int64)

  datatype Entry = Entry(series: string, timestamp: Option<int64>, value: real)

  type Pods = map<PodRef, Containers>

  /** The two values decodeBatch builds while it reads. */
  datatype Decoded = Decoded(node: MetricsPoint, pods: Pods)

  const START := Decoded(ZERO_POINT, map[])

  // ----- What one line says -----

  datatype Key = Node | Container(ref: PodRef, name: string)

  datatype Field = Cpu | Memory | Start

  /** Malformed labels end the program. */
  datatype Line = Sets(key: Key, field: Field) | Ignored | Malformed

  function ContainerLine(labels: string, field: Field): Line {
    match ParseContainerLabels(labels)
    case None => Malformed
    case Some((ref, name)) => Sets(Container(ref, name), field)
  }

  function Classify(series: string): Line {
    if TimeseriesMatchesName(series, NODE_CPU) then Sets(Node, Cpu)
    else if TimeseriesMatchesName(series, NODE_MEMORY) then Sets(Node, Memory)
    else if TimeseriesMatchesName(series, CONTAINER_CPU) then ContainerLine(series[|CONTAINER_CPU|..], Cpu)
    else if TimeseriesMatchesName(series, CONTAINER_MEMORY) then ContainerLine(series[|CONTAINER_MEMORY|..], Memory)
    else if TimeseriesMatchesName(series, CONTAINER_START) then ContainerLine(series[|CONTAINER_START|..], Start)
    else Ignored
  }

  function Truncate(value: real): int {
    if value >= 0.0 then value.Floor else -(-value).Floor
  }

  function ToUint64(value: real, env: Env): uint64 {
    if 0 <= Truncate(value) < TWO_64 then Truncate(value) else env.openUint64(value)
  }

  function ToInt64(value: real, env: Env): int64 {
    if INT64_MIN <= Truncate(value) < TWO_63 then Truncate(value) else env.openInt64(value)
  }

  const BILLION: real := 1_000_000_000.0

  /** timestamp * 1e6 in 64 bits. */
  function NanosOf(ms: int64): int64 {
    (ms * 1_000_000 + TWO_63) % (2 * TWO_63) - TWO_63
  }

  /** time.Unix(0, nanos) */
  function Unix(nanos: int64): Time {
    EPOCH + nanos
  }

  function Update(p: MetricsPoint, field: Field, ms: int64, value: real, env: Env): MetricsPoint {
    match field
    case Cpu => p.(cpu := ToUint64(value * BILLION, env), timestamp := Unix(NanosOf(ms)))
    case Memory => p.(memory := ToUint64(value, env), timestamp := Unix(NanosOf(ms)))
    case Start => p.(startTime := Unix(ToInt64(value * BILLION, env)))
  }

  function Stamp(entry: Entry, env: Env): int64 {
    if entry.timestamp.Some? then entry.timestamp.value else env.defaultTimestamp
  }

  function SetPoint(pods: Pods, ref: PodRef, name: string, p: MetricsPoint): Pods {
    pods[ref := (if ref in pods then pods[ref] else map[])[name := p]]
  }

  function PointIn(pods: Pods, ref: PodRef, name: string): MetricsPoint {
    if ref in pods then PointOf(pods[ref], name) else ZERO_POINT
  }

  function Apply(d: Decoded, line: Line, ms: int64, value: real, env: Env): Option<Decoded> {
    match line
    case Malformed => None
    case Ignored => Some(d)
    case Sets(Node, field) => Some(d.(node := Update(d.node, field, ms, value, env)))
    case Sets(Container(ref, name), field) =>
      Some(d.(pods := SetPoint(d.pods, ref, name, Update(PointIn(d.pods, ref, name), field, ms, value, env))))
  }

  function Step(d: Decoded, entry: Entry, env: Env): Option<Decoded> {
    Apply(d, Classify(entry.series), Stamp(entry, env), entry.value, env)
  }

  function Fold(entries: seq<Entry>, env: Env): Option<Decoded>
    decreases |entries|
  {
    if entries == [] then Some(START)
    else
      match Fold(entries[..|entries| - 1], env)
      case None => None
      case Some(d) => Step(d, entries[|entries| - 1], env)
  }

  // ----- What is emitted -----

  predicate Complete(p: MetricsPoint) {
    p.cpu != 0 && p.memory != 0
  }

  ghost predicate Incomplete(containers: Containers) {
    exists name :: name in containers && containers[name] != ZERO_POINT && !Complete(containers[name])
  }

  /** None is the source's nil map: some container is incomplete.  Containers about which nothing is
      known are passed over. */
  ghost function Checked(containers: Containers): Option<Containers> {
    if Incomplete(containers) then None
    else Some(map name | name in containers && containers[name] != ZERO_POINT :: containers[name])
  }

  ghost function EmittedPods(pods: Pods): Pods {
    map ref | ref in pods && pods[ref] != map[] && Checked(pods[ref]).Some? :: Checked(pods[ref]).value
  }

  function EmittedNodes(nodeName: string, node: MetricsPoint): map<string, MetricsPoint> {
    if node.timestamp == 0 || node.cpu == 0 || node.memory == 0 then map[] else map[nodeName := node]
  }

  /** The batch decoded from all lines; None when the program ends in a panic. */
  ghost function Decoding(entries: seq<Entry>, env: Env, nodeName: string): Option<Batch> {
    match Fold(entries, env)
    case None => None
    case Some(d) => Some(Batch(EmittedNodes(nodeName, d.node), EmittedPods(d.pods)))
  }

  // ----- The code -----

  method ParseContainerMetrics(ref: PodRef, name: string, field: Field, ms: int64, value: real, env: Env, pods: Pods)
    returns (result: Pods)
    ensures result == SetPoint(pods, ref, name, Update(PointIn(pods, ref, name), field, ms, value, env))
  {
    result := pods;
    if ref !in result {
      result := result[ref := map[]];
    }
    if name !in result[ref] {
      result := result[ref := result[ref][name := ZERO_POINT]];
    }
    var containerMetrics := result[ref][name];
    ghost var point := Update(containerMetrics, field, ms, value, env);
    assert result[ref][name := point] == (if ref in pods then pods[ref] else map[])[name := point];
    assert result[ref := result[ref][name := point]] == SetPoint(pods, ref, name, point);
    match field {
      case Cpu => containerMetrics := containerMetrics.(cpu := ToUint64(value * BILLION, env), timestamp := Unix(NanosOf(ms)));
      case Memory => containerMetrics := containerMetrics.(memory := ToUint64(value, env), timestamp := Unix(NanosOf(ms)));
      case Start => containerMetrics := containerMetrics.(startTime := Unix(ToInt64(value * BILLION, env)));
    }
    result := result[ref := result[ref][name := containerMetrics]];
  }

  method CheckContainerMetrics(containers: Containers) returns (result: Option<Containers>)
    ensures result == Checked(containers)
  {
    var podMetrics: Containers := map[];
    var todo := containers.Keys;
    while todo != {}
      invariant todo <= containers.Keys
      invariant podMetrics == map name | name in containers && name !in todo && containers[name] != ZERO_POINT ::
                                containers[name]
      invariant forall name :: name in containers && name !in todo && containers[name] != ZERO_POINT ==>
                                 Complete(containers[name])
    {
      var name :| name in todo;
      todo := todo - {name};
      if containers[name] != ZERO_POINT {
        if containers[name].cpu == 0 || containers[name].memory == 0 {
          return None;
        }
        podMetrics := podMetrics[name := containers[name]];
      }
    }
    assert podMetrics == map name | name in containers && containers[name] != ZERO_POINT :: containers[name];
    return Some(podMetrics);
  }

  /** The switch on the series name. */
  method ReadSeries(entry: Entry, env: Env, d: Decoded) returns (result: Option<Decoded>)
    ensures result == Step(d, entry, env)
  {
    var series, value := entry.series, entry.value;
    var ms := Stamp(entry, env);
    if TimeseriesMatchesName(series, NODE_CPU) {
      return Some(d.(node := d.node.(cpu := ToUint64(value * BILLION, env), timestamp := Unix(NanosOf(ms)))));
    } else if TimeseriesMatchesName(series, NODE_MEMORY) {
      return Some(d.(node := d.node.(memory := ToUint64(value, env), timestamp := Unix(NanosOf(ms)))));
    } else if TimeseriesMatchesName(series, CONTAINER_CPU) {
      result := ReadContainer(series[|CONTAINER_CPU|..], Cpu, ms, value, env, d);
    } else if TimeseriesMatchesName(series, CONTAINER_MEMORY) {
      result := ReadContainer(series[|CONTAINER_MEMORY|..], Memory, ms, value, env, d);
    } else if TimeseriesMatchesName(series, CONTAINER_START) {
      result := ReadContainer(series[|CONTAINER_START|..], Start, ms, value, env, d);
    } else {
      return Some(d);
    }
  }

  method ReadContainer(labels: string, field: Field, ms: int64, value: real, env: Env, d: Decoded) returns (result: Option<Decoded>)
    ensures result == Apply(d, ContainerLine(labels, field), ms, value, env)
  {
    var parsed := ParseContainerLabels(labels);
    if parsed.None? {
      return None;
    }
    var pods := ParseContainerMetrics(parsed.value.0, parsed.value.1, field, ms, value, env, d.pods);
    return Some(d.(pods := pods));
  }

  method DecodeBatch(entries: seq<Entry>, env: Env, nodeName: string) returns (result: Option<Batch>)
    ensures result == Decoding(entries, env, nodeName)
  {
    var d := START;
    for n := 0 to |entries|
      invariant Fold(entries[..n], env) == Some(d)
    {
      assert entries[..n + 1][..n] == entries[..n];
      var read := ReadSeries(entries[n], env, d);
      if read.None? {
        PanicStays(entries, n + 1, env);
        return None;
      }
      d := read.value;
    }
    assert entries[..|entries|] == entries;
    var nodes: map<string, MetricsPoint> := map[];
    if d.node.timestamp != 0 && d.node.cpu != 0 && d.node.memory != 0 {
      nodes := nodes[nodeName := d.node];
    }
    var pods := EmitPods(d.pods);
    return Some(Batch(nodes, pods));
  }

  method EmitPods(pods: Pods) returns (emitted: Pods)
    ensures emitted == EmittedPods(pods)
  {
    emitted := map[];
    var todo := pods.Keys;
    while todo != {}
      invariant todo <= pods.Keys
      invariant forall ref :: ref in emitted <==>
                  ref in pods && ref !in todo && pods[ref] != map[] && Checked(pods[ref]).Some?
      invariant forall ref :: ref in emitted ==> emitted[ref] == Checked(pods[ref]).value
    {
      var ref :| ref in todo;
      todo := todo - {ref};
      if |pods[ref]| != 0 {
        var checked := CheckContainerMetrics(pods[ref]);
        if checked.Some? {
          emitted := emitted[ref := checked.value];
        }
      }
    }
  }

  lemma {:induction false} PanicStays(entries: seq<Entry>, n: nat, env: Env)
    requires n <= |entries| && Fold(entries[..n], env).None?
    ensures Fold(entries, env).None?
    decreases |entries| - n
  {
    if n == |entries| {
      assert entries[..n] == entries;
    } else {
      assert entries[..n + 1][..n] == entries[..n];
      PanicStays(entries, n + 1, env);
    }
  }
}
