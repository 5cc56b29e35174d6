/** What decodeBatch computes, said without its loop: each value comes from the last line that sets it. */
module DecodeMeaning {
  import opened Options
  import opened MetricsTypes
  import opened Labels
  import opened Decode

  /** The last line that sets this field of this key. */
  function LastLine(entries: seq<Entry>, key: Key, field: Field): Option<Entry>
    decreases |entries|
  {
    if entries == [] then None
    else
      var entry := entries[|entries| - 1];
      if Classify(entry.series) == Sets(key, field) then Some(entry) else LastLine(entries[..|entries| - 1], key, field)
  }

  predicate IsMeasurement(line: Line, key: Key) {
    line == Sets(key, Cpu) || line == Sets(key, Memory)
  }

  /** The last CPU or memory line of this key, which sets its timestamp. */
  function LastMeasurement(entries: seq<Entry>, key: Key): Option<Entry>
    decreases |entries|
  {
    if entries == [] then None
    else
      var entry := entries[|entries| - 1];
      if IsMeasurement(Classify(entry.series), key) then Some(entry) else LastMeasurement(entries[..|entries| - 1], key)
  }

  /** The point these lines make. */
  function PointOfLines(start: Option<Entry>, stamp: Option<Entry>, cpu: Option<Entry>, memory: Option<Entry>, env: Env): MetricsPoint {
    MetricsPoint(
      if start.None? then 0 else Unix(ToInt64(start.value.value * BILLION, env)),
      if stamp.None? then 0 else Unix(NanosOf(Stamp(stamp.value, env))),
      if cpu.None? then 0 else ToUint64(cpu.value.value * BILLION, env),
      if memory.None? then 0 else ToUint64(memory.value.value, env))
  }

  function PointFor(entries: seq<Entry>, key: Key, env: Env): MetricsPoint {
    PointOfLines(LastLine(entries, key, Start), LastMeasurement(entries, key),
                 LastLine(entries, key, Cpu), LastLine(entries, key, Memory), env)
  }

  ghost predicate Mentioned(entries: seq<Entry>, key: Key) {
    exists entry :: entry in entries && Classify(entry.series).Sets? && Classify(entry.series).key == key
  }

  ghost predicate Readable(entries: seq<Entry>) {
    forall entry <- entries :: !Classify(entry.series).Malformed?
  }

  // ----- The two values being built -----

  function At(d: Decoded, key: Key): MetricsPoint {
    match key
    case Node => d.node
    case Container(ref, name) => PointIn(d.pods, ref, name)
  }

  predicate Present(pods: Pods, ref: PodRef, name: string) {
    ref in pods && name in pods[ref]
  }

  lemma MentionedStep(entries: seq<Entry>, key: Key)
    requires entries != []
    ensures var line := Classify(entries[|entries| - 1].series);
      Mentioned(entries, key) <==> (line.Sets? && line.key == key) || Mentioned(entries[..|entries| - 1], key)
  {
    var n := |entries| - 1;
    assert entries == entries[..n] + [entries[n]];
    if Mentioned(entries[..n], key) {
      var entry :| entry in entries[..n] && Classify(entry.series).Sets? && Classify(entry.series).key == key;
      assert entry in entries;
    }
  }

  lemma ReadableStep(entries: seq<Entry>)
    requires entries != []
    ensures Readable(entries)
            <==> !Classify(entries[|entries| - 1].series).Malformed? && Readable(entries[..|entries| - 1])
  {
    var n := |entries| - 1;
    assert entries == entries[..n] + [entries[n]];
  }

  /** The program reads all lines exactly when no container line has labels it cannot cut. */
  lemma {:induction false} ReadsUnlessMalformed(entries: seq<Entry>, env: Env)
    ensures Fold(entries, env).Some? <==> Readable(entries)
    decreases |entries|
  {
    if entries != [] {
      ReadableStep(entries);
      ReadsUnlessMalformed(entries[..|entries| - 1], env);
    }
  }

  /** One line changes the point it is about and no other. */
  lemma ApplyMeans(d: Decoded, line: Line, ms: int64, value: real, env: Env, key: Key)
    requires Apply(d, line, ms, value, env).Some?
    ensures var n := Apply(d, line, ms, value, env).value;
      && At(n, key) == (if line.Sets? && line.key == key then Update(At(d, key), line.field, ms, value, env) else At(d, key))
      && (key.Container? ==> (Present(n.pods, key.ref, key.name)
                              <==> Present(d.pods, key.ref, key.name) || (line.Sets? && line.key == key)))
  {
  }

  lemma LineMakesPoint(line: Line, entry: Entry, start: Option<Entry>, stamp: Option<Entry>,
                       cpu: Option<Entry>, memory: Option<Entry>, key: Key, env: Env)
    requires line.Sets? && line.key == key
    ensures Update(PointOfLines(start, stamp, cpu, memory, env), line.field, Stamp(entry, env), entry.value, env)
            == PointOfLines(if line == Sets(key, Start) then Some(entry) else start,
                            if IsMeasurement(line, key) then Some(entry) else stamp,
                            if line == Sets(key, Cpu) then Some(entry) else cpu,
                            if line == Sets(key, Memory) then Some(entry) else memory, env)
  {
    FieldsAreThree(line, key);
  }

  lemma PointForStep(entries: seq<Entry>, env: Env, key: Key)
    requires entries != []
    ensures var entry, before := entries[|entries| - 1], PointFor(entries[..|entries| - 1], key, env);
      var line := Classify(entry.series);
      PointFor(entries, key, env)
      == if line.Sets? && line.key == key then Update(before, line.field, Stamp(entry, env), entry.value, env)
         else before
  {
    var before, entry := entries[..|entries| - 1], entries[|entries| - 1];
    if Classify(entry.series).Sets? && Classify(entry.series).key == key {
      LineMakesPoint(Classify(entry.series), entry, LastLine(before, key, Start), LastMeasurement(before, key),
                     LastLine(before, key, Cpu), LastLine(before, key, Memory), key, env);
    }
  }

  /** After any lines every point is what the last lines for it say, and the containers held are those mentioned. */
  lemma {:induction false} FoldMeans(entries: seq<Entry>, env: Env, key: Key)
    requires Fold(entries, env).Some?
    ensures var d := Fold(entries, env).value;
      && At(d, key) == PointFor(entries, key, env)
      && (key.Container? ==> (Present(d.pods, key.ref, key.name) <==> Mentioned(entries, key)))
    decreases |entries|
  {
    if entries != [] {
      var before, entry := entries[..|entries| - 1], entries[|entries| - 1];
      FoldMeans(before, env, key);
      MentionedStep(entries, key);
      PointForStep(entries, env, key);
      ApplyMeans(Fold(before, env).value, Classify(entry.series), Stamp(entry, env), entry.value, env, key);
    }
  }

  lemma {:induction false} PodsHaveContainers(entries: seq<Entry>, env: Env, ref: PodRef)
    requires Fold(entries, env).Some?
    ensures var pods := Fold(entries, env).value.pods; ref in pods ==> pods[ref] != map[]
    decreases |entries|
  {
    if entries != [] {
      PodsHaveContainers(entries[..|entries| - 1], env, ref);
      var entry := entries[|entries| - 1];
      match Classify(entry.series)
      case Sets(Container(r, name), _) =>
        assert Present(Fold(entries, env).value.pods, r, name);
      case _ =>
    }
  }

  lemma {:induction false} LastLineIsLine(entries: seq<Entry>, key: Key, field: Field)
    ensures var found := LastLine(entries, key, field);
      && (found.Some? ==> found.value in entries && Classify(found.value.series) == Sets(key, field))
      && (forall entry <- entries :: Classify(entry.series) == Sets(key, field) ==> found.Some?)
    decreases |entries|
  {
    if entries != [] {
      var before, entry := entries[..|entries| - 1], entries[|entries| - 1];
      LastLineIsLine(before, key, field);
      assert entries == before + [entry];
      assert LastLine(entries, key, field)
             == if Classify(entry.series) == Sets(key, field) then Some(entry) else LastLine(before, key, field);
    }
  }

  lemma {:induction false} LastMeasurementIsLine(entries: seq<Entry>, key: Key)
    ensures var found := LastMeasurement(entries, key);
      && (found.Some? ==> found.value in entries && IsMeasurement(Classify(found.value.series), key))
      && (forall entry <- entries :: IsMeasurement(Classify(entry.series), key) ==> found.Some?)
    decreases |entries|
  {
    if entries != [] {
      LastMeasurementIsLine(entries[..|entries| - 1], key);
      assert entries == entries[..|entries| - 1] + [entries[|entries| - 1]];
    }
  }

  /** No mentioned key keeps the zero point, and a CPU value never comes without a timestamp. */
  lemma MentionedIsNotZero(entries: seq<Entry>, key: Key, env: Env)
    ensures var p := PointFor(entries, key, env);
      && (Mentioned(entries, key) ==> p != ZERO_POINT)
      && (p.cpu != 0 ==> p.timestamp != 0)
  {
    UnixIsPositive();
    MentionedSetsTime(entries, key);
  }

  lemma UnixIsPositive()
    ensures forall nanos: int64 :: Unix(nanos) > 0
  {
  }

  lemma MentionedSetsTime(entries: seq<Entry>, key: Key)
    ensures Mentioned(entries, key) ==> LastLine(entries, key, Start).Some? || LastMeasurement(entries, key).Some?
    ensures LastLine(entries, key, Cpu).Some? ==> LastMeasurement(entries, key).Some?
  {
    LastLineIsLine(entries, key, Start);
    LastLineIsLine(entries, key, Cpu);
    LastMeasurementIsLine(entries, key);
    if Mentioned(entries, key) {
      var entry :| entry in entries && Classify(entry.series).Sets? && Classify(entry.series).key == key;
      FieldsAreThree(Classify(entry.series), key);
    }
  }

  lemma FieldsAreThree(line: Line, key: Key)
    requires line.Sets? && line.key == key
    ensures IsMeasurement(line, key) || line == Sets(key, Start)
  {
    match line.field
    case Cpu => assert line == Sets(key, Cpu);
    case Memory => assert line == Sets(key, Memory);
    case Start => assert line == Sets(key, Start);
  }

  // ----- All or nothing -----

  /** Every container mentioned for the pod has CPU and memory. */
  ghost predicate PodComplete(entries: seq<Entry>, ref: PodRef, env: Env) {
    forall name: string :: Mentioned(entries, Container(ref, name)) ==>
      var p := PointFor(entries, Container(ref, name), env); p.cpu != 0 && p.memory != 0
  }

  ghost predicate PodMentioned(entries: seq<Entry>, ref: PodRef) {
    exists name: string :: Mentioned(entries, Container(ref, name))
  }

  /** The node is emitted exactly when both its values are non-zero. */
  lemma NodeIsEmittedWhenComplete(entries: seq<Entry>, env: Env, nodeName: string)
    requires Readable(entries)
    ensures Decoding(entries, env, nodeName).Some?
    ensures var p := PointFor(entries, Node, env);
      Decoding(entries, env, nodeName).value.nodes == if p.cpu != 0 && p.memory != 0 then map[nodeName := p] else map[]
  {
    ReadsUnlessMalformed(entries, env);
    FoldMeans(entries, env, Node);
    MentionedIsNotZero(entries, Node, env);
  }

  /** A pod is emitted exactly when it is mentioned and every container mentioned for it is complete,
      and then with all of them. */
  lemma PodIsEmittedWhenComplete(entries: seq<Entry>, env: Env, nodeName: string, ref: PodRef)
    requires Readable(entries)
    ensures Decoding(entries, env, nodeName).Some?
    ensures var pods := Decoding(entries, env, nodeName).value.pods;
      && (ref in pods <==> PodMentioned(entries, ref) && PodComplete(entries, ref, env))
      && (ref in pods ==> forall name: string ::
            && (name in pods[ref] <==> Mentioned(entries, Container(ref, name)))
            && (name in pods[ref] ==> pods[ref][name] == PointFor(entries, Container(ref, name), env)))
  {
    ReadsUnlessMalformed(entries, env);
    var pods := Fold(entries, env).value.pods;
    PodsHaveContainers(entries, env, ref);
    forall name: string
      ensures Present(pods, ref, name) <==> Mentioned(entries, Container(ref, name))
      ensures Present(pods, ref, name) ==>
                pods[ref][name] == PointFor(entries, Container(ref, name), env) != ZERO_POINT
    {
      FoldMeans(entries, env, Container(ref, name));
      MentionedIsNotZero(entries, Container(ref, name), env);
    }
    PodEmission(pods, ref);
  }

  lemma PodEmission(pods: Pods, ref: PodRef)
    requires ref in pods ==> pods[ref] != map[]
    requires forall name: string :: Present(pods, ref, name) ==> pods[ref][name] != ZERO_POINT
    ensures ref in EmittedPods(pods) <==>
              && (exists name: string :: Present(pods, ref, name))
              && (forall name: string :: Present(pods, ref, name) ==> pods[ref][name].cpu != 0 && pods[ref][name].memory != 0)
    ensures ref in EmittedPods(pods) ==> EmittedPods(pods)[ref] == pods[ref]
  {
    if ref in pods {
      var containers: Containers := pods[ref];
      assert |containers| != 0 && containers.Keys != {};
      var name: string :| name in containers.Keys;
      assert Present(pods, ref, name);
      assert forall n: string :: n in containers ==> Present(pods, ref, n);
    }
  }

  // ----- Order -----

  /** No two different lines set the same field of the same key. */
  ghost predicate OneLineEach(entries: seq<Entry>) {
    forall a, b :: (a in entries && b in entries && Classify(a.series).Sets?
                    && Classify(a.series) == Classify(b.series)) ==> a == b
  }

  /** The CPU and memory lines of a key carry the same timestamp. */
  ghost predicate OneTimestampEach(entries: seq<Entry>, env: Env) {
    forall a, b, key :: (a in entries && b in entries && IsMeasurement(Classify(a.series), key)
                         && IsMeasurement(Classify(b.series), key)) ==>
      Stamp(a, env) == Stamp(b, env)
  }

  ghost predicate SameLines(a: seq<Entry>, b: seq<Entry>) {
    forall entry :: entry in a <==> entry in b
  }

  lemma PointIsOrderIndependent(a: seq<Entry>, b: seq<Entry>, key: Key, env: Env)
    requires SameLines(a, b) && OneLineEach(a) && OneTimestampEach(a, env)
    ensures PointFor(a, key, env) == PointFor(b, key, env)
  {
    SameLastLine(a, b, key, Start);
    SameLastLine(a, b, key, Cpu);
    SameLastLine(a, b, key, Memory);
    LastMeasurementIsLine(a, key);
    LastMeasurementIsLine(b, key);
  }

  lemma SameLastLine(a: seq<Entry>, b: seq<Entry>, key: Key, field: Field)
    requires SameLines(a, b) && OneLineEach(a)
    ensures LastLine(a, key, field) == LastLine(b, key, field)
  {
    LastLineIsLine(a, key, field);
    LastLineIsLine(b, key, field);
  }

  /** The same lines in any order give the same batch, or the same panic. */
  lemma DecodingIsOrderIndependent(a: seq<Entry>, b: seq<Entry>, env: Env, nodeName: string)
    requires multiset(a) == multiset(b)
    requires OneLineEach(a) && OneTimestampEach(a, env)
    ensures Decoding(a, env, nodeName) == Decoding(b, env, nodeName)
  {
    assert SameLines(a, b) by {
      assert forall entry :: entry in a <==> entry in multiset(a);
      assert forall entry :: entry in b <==> entry in multiset(b);
    }
    ReadsUnlessMalformed(a, env);
    ReadsUnlessMalformed(b, env);
    if Readable(a) {
      SameDecoded(a, b, env);
    }
  }

  lemma SameDecoded(a: seq<Entry>, b: seq<Entry>, env: Env)
    requires SameLines(a, b) && OneLineEach(a) && OneTimestampEach(a, env)
    requires Fold(a, env).Some? && Fold(b, env).Some?
    ensures Fold(a, env) == Fold(b, env)
  {
    var da, db := Fold(a, env).value, Fold(b, env).value;
    FoldMeans(a, env, Node);
    FoldMeans(b, env, Node);
    PointIsOrderIndependent(a, b, Node, env);
    forall ref: PodRef, name: string
      ensures Present(da.pods, ref, name) <==> Present(db.pods, ref, name)
      ensures PointIn(da.pods, ref, name) == PointIn(db.pods, ref, name)
    {
      var key := Container(ref, name);
      FoldMeans(a, env, key);
      FoldMeans(b, env, key);
      PointIsOrderIndependent(a, b, key, env);
      assert Mentioned(a, key) <==> Mentioned(b, key);
    }
    forall ref: PodRef
      ensures ref in da.pods ==> da.pods[ref] != map[]
      ensures ref in db.pods ==> db.pods[ref] != map[]
    {
      PodsHaveContainers(a, env, ref);
      PodsHaveContainers(b, env, ref);
    }
    SamePoints(da.pods, db.pods);
    SamePoints(db.pods, da.pods);
    assert da.pods == db.pods;
  }

  lemma SamePoints(a: Pods, b: Pods)
    requires forall ref: PodRef, name: string :: Present(a, ref, name) <==> Present(b, ref, name)
    requires forall ref: PodRef, name: string :: PointIn(a, ref, name) == PointIn(b, ref, name)
    requires forall ref: PodRef :: ref in a ==> a[ref] != map[]
    ensures forall ref: PodRef :: ref in a ==> ref in b && a[ref] == b[ref]
  {
    forall ref: PodRef | ref in a
      ensures ref in b && a[ref] == b[ref]
    {
      var containers: Containers := a[ref];
      assert |containers| != 0 && containers.Keys != {};
      var some: string :| some in containers.Keys;
      assert Present(a, ref, some);
      assert forall name: string :: name in a[ref] <==> Present(a, ref, name);
      assert forall name: string :: name in a[ref] ==> a[ref][name] == PointIn(a, ref, name) == b[ref][name];
    }
  }

  // ----- The timestamp is not always that of the CPU value -----

  function TimeOf(entry: Entry, env: Env): Time {
    Unix(NanosOf(Stamp(entry, env)))
  }

  lemma {:induction false} LastMeasurementAt(entries: seq<Entry>, key: Key, m: nat)
    requires m < |entries| && IsMeasurement(Classify(entries[m].series), key)
    requires forall k: nat :: m < k < |entries| ==> !IsMeasurement(Classify(entries[k].series), key)
    ensures LastMeasurement(entries, key) == Some(entries[m])
    decreases |entries|
  {
    if m < |entries| - 1 {
      LastMeasurementAt(entries[..|entries| - 1], key, m);
    }
  }

  /** The last of these lines of the key. */
  ghost predicate IsLast(entries: seq<Entry>, key: Key, field: Field, i: nat) {
    && i < |entries| && Classify(entries[i].series) == Sets(key, field)
    && forall k: nat :: i < k < |entries| ==> Classify(entries[k].series) != Sets(key, field)
  }

  /** The point carries the time of its CPU value, as MetricsPoint says it should, exactly when the last
      memory line, if it comes after the last CPU line, has the same time. */
  lemma TimestampIsCpuTime(entries: seq<Entry>, key: Key, cpu: nat, env: Env)
    requires IsLast(entries, key, Cpu, cpu)
    ensures PointFor(entries, key, env).timestamp == TimeOf(entries[cpu], env)
            <==> forall m: nat :: IsLast(entries, key, Memory, m) && cpu < m ==>
                   TimeOf(entries[m], env) == TimeOf(entries[cpu], env)
  {
    if m: nat :| cpu < m < |entries| && Classify(entries[m].series) == Sets(key, Memory) {
      var last := LastOf(entries, key, Memory, m);
      LastMeasurementAt(entries, key, last);
      forall other: nat | IsLast(entries, key, Memory, other)
        ensures other == last
      {
      }
    } else {
      LastMeasurementAt(entries, key, cpu);
    }
  }

  lemma {:induction false} LastOf(entries: seq<Entry>, key: Key, field: Field, i: nat) returns (last: nat)
    requires i < |entries| && Classify(entries[i].series) == Sets(key, field)
    ensures i <= last && IsLast(entries, key, field, last)
    decreases |entries| - i
  {
    if k: nat :| i < k < |entries| && Classify(entries[k].series) == Sets(key, field) {
      last := LastOf(entries, key, field, k);
    } else {
      last := i;
    }
  }

  // ----- A printed series is read as what it was printed for -----

  function ContainerSeries(field: Field): string {
    match field
    case Cpu => CONTAINER_CPU
    case Memory => CONTAINER_MEMORY
    case Start => CONTAINER_START
  }

  lemma NamesDiffer()
    ensures CONTAINER_CPU != NODE_CPU && CONTAINER_CPU != NODE_MEMORY
    ensures CONTAINER_MEMORY != NODE_CPU && CONTAINER_MEMORY != NODE_MEMORY && CONTAINER_MEMORY != CONTAINER_CPU
    ensures CONTAINER_START != NODE_CPU && CONTAINER_START != NODE_MEMORY
    ensures CONTAINER_START != CONTAINER_CPU && CONTAINER_START != CONTAINER_MEMORY
  {
  }

  lemma MatchesOnlyItself(ts: string, name: string, other: string)
    requires '{' !in name && '{' !in other && name != other && TimeseriesMatchesName(ts, name)
    ensures !TimeseriesMatchesName(ts, other)
  {
    if TimeseriesMatchesName(ts, other) {
      MatchesAtMostOne(ts, name, other);
    }
  }

  lemma SeriesRoundTrip(field: Field, labels: seq<Label>, container: string, ref: PodRef)
    requires multiset(labels)
             == multiset{Label("container", container), Label("namespace", ref.namespace), Label("pod", ref.name)}
    requires Plain(container) && Plain(ref.namespace) && Plain(ref.name)
    ensures Classify(ContainerSeries(field) + Print(labels, '{')) == Sets(Container(ref, container), field)
  {
    var name, text := ContainerSeries(field), Print(labels, '{');
    var series := name + text;
    LabelRoundTrip(labels, container, ref);
    assert |labels| == |multiset(labels)| == 3 && text[0] == '{';
    assert series[..|name|] == name && series[|name|..] == text && series[|name|] == '{';
    NamesHaveNoBrace();
    NamesDiffer();
    OthersDoNotMatch(field, series);
  }

  /** Node series are read as such, bare or with labels. */
  lemma NodeSeriesAreRead(text: string)
    requires text == "" || text[0] == '{'
    ensures Classify("node_cpu_usage_seconds_total" + text) == Sets(Node, Cpu)
    ensures Classify("node_memory_working_set_bytes" + text) == Sets(Node, Memory)
  {
    IsItsOwnName(NODE_CPU, text);
    IsItsOwnName(NODE_MEMORY, text);
    NamesHaveNoBrace();
    NodeNamesDiffer();
    MatchesOnlyItself(NODE_MEMORY + text, NODE_MEMORY, NODE_CPU);
  }

  lemma NodeNamesDiffer()
    ensures NODE_CPU != NODE_MEMORY
  {
  }

  lemma IsItsOwnName(name: string, text: string)
    requires text == "" || text[0] == '{'
    ensures TimeseriesMatchesName(name + text, name)
  {
    assert (name + text)[..|name|] == name;
  }

  lemma OthersDoNotMatch(field: Field, series: string)
    requires TimeseriesMatchesName(series, ContainerSeries(field))
    ensures !TimeseriesMatchesName(series, NODE_CPU) && !TimeseriesMatchesName(series, NODE_MEMORY)
    ensures field != Cpu ==> !TimeseriesMatchesName(series, CONTAINER_CPU)
    ensures field != Memory ==> !TimeseriesMatchesName(series, CONTAINER_MEMORY)
  {
    NamesHaveNoBrace();
    NamesDiffer();
    MatchesOnlyItself(series, ContainerSeries(field), NODE_CPU);
    MatchesOnlyItself(series, ContainerSeries(field), NODE_MEMORY);
    if field != Cpu {
      MatchesOnlyItself(series, ContainerSeries(field), CONTAINER_CPU);
    }
    if field != Memory {
      MatchesOnlyItself(series, ContainerSeries(field), CONTAINER_MEMORY);
    }
  }

  /** A memory line printed after the CPU line of its container, with another time, takes the point's
      timestamp away from its CPU value. */
  lemma LateMemoryMovesTimestamp(labels: seq<Label>, container: string, ref: PodRef, a: int64, b: int64, value: real, env: Env)
    requires multiset(labels)
             == multiset{Label("container", container), Label("namespace", ref.namespace), Label("pod", ref.name)}
    requires Plain(container) && Plain(ref.namespace) && Plain(ref.name)
    requires NanosOf(a) != NanosOf(b)
    ensures var entries := [Entry(ContainerSeries(Cpu) + Print(labels, '{'), Some(a), value),
                            Entry(ContainerSeries(Memory) + Print(labels, '{'), Some(b), value)];
      PointFor(entries, Container(ref, container), env).timestamp == Unix(NanosOf(b)) != Unix(NanosOf(a))
  {
    var entries := [Entry(ContainerSeries(Cpu) + Print(labels, '{'), Some(a), value),
                    Entry(ContainerSeries(Memory) + Print(labels, '{'), Some(b), value)];
    SeriesRoundTrip(Cpu, labels, container, ref);
    SeriesRoundTrip(Memory, labels, container, ref);
    LastMeasurementAt(entries, Container(ref, container), 1);
  }

  // ----- Other series -----

  /** The text is this name, alone or followed by a brace. */
  predicate Names(series: string, name: string) {
    series == name || HasPrefix(series, name + "{")
  }

  lemma MatchesMeansNames(series: string, name: string)
    ensures TimeseriesMatchesName(series, name) <==> Names(series, name)
  {
    if HasPrefix(series, name) && |series| > |name| && series[|name|] == '{' {
      assert series[..|name| + 1] == name + "{";
    }
    if HasPrefix(series, name + "{") {
      assert series[|name|] == (name + "{")[|name|];
      assert series[..|name|] == series[..|name| + 1][..|name|];
    }
    if series == name {
      assert series[..|name|] == name;
    }
  }

  /** None of the five series the source reads. */
  predicate Unknown(series: string) {
    && !Names(series, "node_cpu_usage_seconds_total") && !Names(series, "node_memory_working_set_bytes")
    && !Names(series, "container_cpu_usage_seconds_total") && !Names(series, "container_memory_working_set_bytes")
    && !Names(series, "container_start_time_seconds")
  }

  /** A container series whose label text cannot be cut into the three values. */
  predicate Uncuttable(series: string, name: string) {
    Names(series, name) && ParseContainerLabels(series[|name|..]).None?
  }

  lemma UnknownIsIgnored(series: string)
    ensures Unknown(series) ==> Classify(series) == Ignored
  {
    MatchesMeansNames(series, NODE_CPU);
    MatchesMeansNames(series, NODE_MEMORY);
    MatchesMeansNames(series, CONTAINER_CPU);
    MatchesMeansNames(series, CONTAINER_MEMORY);
    MatchesMeansNames(series, CONTAINER_START);
  }

  lemma {:induction false} FoldSkips(a: seq<Entry>, e: Entry, b: seq<Entry>, env: Env)
    requires Classify(e.series) == Ignored
    ensures Fold(a + [e] + b, env) == Fold(a + b, env)
    decreases |b|
  {
    if b == [] {
      assert a + [e] + b == a + [e] && a + b == a;
      assert (a + [e])[..|a|] == a;
    } else {
      var n := |b| - 1;
      assert (a + [e] + b)[..|a| + 1 + n] == a + [e] + b[..n];
      assert (a + b)[..|a| + n] == a + b[..n];
      FoldSkips(a, e, b[..n], env);
    }
  }

  /** A series with any other name, wherever it stands, does not change what is decoded. */
  lemma UnknownSeriesIsSkipped(a: seq<Entry>, e: Entry, b: seq<Entry>, env: Env, nodeName: string)
    requires Unknown(e.series)
    ensures Decoding(a + [e] + b, env, nodeName) == Decoding(a + b, env, nodeName)
  {
    UnknownIsIgnored(e.series);
    FoldSkips(a, e, b, env);
  }

  lemma ContainerIsClassified(field: Field, series: string)
    requires TimeseriesMatchesName(series, ContainerSeries(field))
    ensures Classify(series) == ContainerLine(series[|ContainerSeries(field)|..], field)
  {
    OthersDoNotMatch(field, series);
  }

  lemma OtherIsNotMalformed(series: string)
    requires !TimeseriesMatchesName(series, CONTAINER_CPU) && !TimeseriesMatchesName(series, CONTAINER_MEMORY)
    requires !TimeseriesMatchesName(series, CONTAINER_START)
    ensures !Classify(series).Malformed?
  {
  }

  lemma ContainerIsUncuttable(field: Field, series: string)
    requires Names(series, ContainerSeries(field))
    ensures Classify(series).Malformed? <==> Uncuttable(series, ContainerSeries(field))
    ensures forall other: Field :: other != field ==> !Names(series, ContainerSeries(other))
  {
    MatchesMeansNames(series, ContainerSeries(field));
    ContainerIsClassified(field, series);
    NamesHaveNoBrace();
    NamesDiffer();
    forall other: Field | other != field
      ensures !Names(series, ContainerSeries(other))
    {
      MatchesMeansNames(series, ContainerSeries(other));
      MatchesOnlyItself(series, ContainerSeries(field), ContainerSeries(other));
    }
  }

  ghost predicate UncuttableContainer(series: string) {
    exists field: Field :: Uncuttable(series, ContainerSeries(field))
  }

  lemma MalformedIsUncuttable(series: string)
    ensures Classify(series).Malformed? <==> UncuttableContainer(series)
  {
    if field: Field :| Names(series, ContainerSeries(field)) {
      ContainerIsUncuttable(field, series);
    } else {
      NoContainerIsNotMalformed(series);
    }
  }

  lemma NoContainerIsNotMalformed(series: string)
    requires forall field: Field :: !Names(series, ContainerSeries(field))
    ensures !Classify(series).Malformed?
  {
    assert !Names(series, ContainerSeries(Cpu)) && !Names(series, ContainerSeries(Memory)) && !Names(series, ContainerSeries(Start));
    MatchesMeansNames(series, CONTAINER_CPU);
    MatchesMeansNames(series, CONTAINER_MEMORY);
    MatchesMeansNames(series, CONTAINER_START);
    OtherIsNotMalformed(series);
  }

  /** Decoding ends in a panic exactly when the text of some container series cannot be cut. */
  lemma PanicsOnUncuttableOnly(entries: seq<Entry>, env: Env, nodeName: string)
    ensures Decoding(entries, env, nodeName).None? <==> exists e :: e in entries && UncuttableContainer(e.series)
  {
    ReadsUnlessMalformed(entries, env);
    forall e | e in entries
      ensures Classify(e.series).Malformed? <==> UncuttableContainer(e.series)
    {
      MalformedIsUncuttable(e.series);
    }
  }

  /** The container series by their text. */
  lemma ContainerSeriesNames()
    ensures ContainerSeries(Cpu) == "container_cpu_usage_seconds_total"
    ensures ContainerSeries(Memory) == "container_memory_working_set_bytes"
    ensures ContainerSeries(Start) == "container_start_time_seconds"
  {
  }

  // ----- Units -----

  /** Seconds become nanoseconds and milliseconds nanoseconds since the Unix epoch, cut toward zero, and only
      a value out of range is left to the machine. */
  lemma UnitsAreExact(value: real, ms: int64, env: Env)
    ensures 0.0 <= value < 18_446_744_073_709_551_616.0 ==> ToUint64(value, env) as real <= value < ToUint64(value, env) as real + 1.0
    ensures -1.0 < value < 0.0 ==> ToUint64(value, env) == 0
    ensures -9_223_372_036_854_775_808.0 <= value < 9_223_372_036_854_775_808.0 ==>
              var n := ToInt64(value, env) as real;
              if value >= 0.0 then n <= value < n + 1.0 else n - 1.0 < value <= n
    ensures -9_223_372_036_854 <= ms <= 9_223_372_036_854 ==>
              Unix(NanosOf(ms)) == 62_135_596_800_000_000_000 + ms * 1_000_000
    ensures BILLION == 1_000_000_000.0 && Unix(0) == 62_135_596_800_000_000_000
  {
  }

  /** A line without a timestamp has that of the scrape. */
  lemma StampIsOwnOrDefault(series: string, ms: int64, value: real, env: Env)
    ensures Stamp(Entry(series, Some(ms), value), env) == ms && Stamp(Entry(series, None, value), env) == env.defaultTimestamp
  {
  }

  /** One and a half CPU seconds measured 1500 milliseconds after the epoch by a node started one second after it. */
  lemma UnitsExample(p: MetricsPoint, env: Env)
    ensures var cpu, start := Update(p, Cpu, 1500, 1.5, env), Update(p, Start, 1500, 1.0, env);
      && cpu.cpu == 1_500_000_000 && cpu.timestamp == 62_135_596_801_500_000_000
      && cpu.memory == p.memory && cpu.startTime == p.startTime
      && start == p.(startTime := 62_135_596_801_000_000_000)
      && Update(p, Memory, 1500, 7.0, env) == p.(memory := 7, timestamp := 62_135_596_801_500_000_000)
  {
    UnitsAreExact(1.5 * BILLION, 1500, env);
  }
}
