/** Series names and label text of pkg/scraper/client/resource/decode.go. */
module Labels {
  import opened Options
  import opened MetricsTypes

  // ----- bytes.Index and bytes.IndexByte -----

  predicate OccursAt(s: string, tag: string, i: int) {
    0 <= i <= |s| - |tag| && s[i..i + |tag|] == tag
  }

  /** The first occurrence at or after i. */
  function IndexFrom(s: string, tag: string, i: nat): int
    requires i <= |s| + 1
    decreases |s| + 1 - i
  {
    if i + |tag| > |s| then -1
    else if s[i..i + |tag|] == tag then i
    else IndexFrom(s, tag, i + 1)
  }

  function Index(s: string, tag: string): int {
    IndexFrom(s, tag, 0)
  }

  function IndexByte(s: string, c: char): int {
    Index(s, [c])
  }

  lemma {:induction false} IndexFromIsFirst(s: string, tag: string, i: nat, at: int)
    requires i <= at && OccursAt(s, tag, at)
    requires forall k :: i <= k < at ==> !OccursAt(s, tag, k)
    ensures IndexFrom(s, tag, i) == at
    decreases at - i
  {
    if i < at {
      assert !OccursAt(s, tag, i);
      IndexFromIsFirst(s, tag, i + 1, at);
    }
  }

  lemma CharOfOccurrence(s: string, tag: string, i: int, k: nat)
    requires OccursAt(s, tag, i) && k < |tag|
    ensures s[i + k] == tag[k]
  {
    assert s[i..i + |tag|][k] == s[i + k];
  }

  lemma ShiftOccurrence(front: string, s: string, tag: string, i: nat)
    ensures OccursAt(front + s, tag, |front| + i) <==> OccursAt(s, tag, i)
    ensures i <= |s| ==> (front + s)[|front| + i..] == s[i..]
  {
    if i <= |s| - |tag| {
      assert (front + s)[|front| + i..|front| + i + |tag|] == s[i..i + |tag|];
    }
  }

  // ----- Series names -----

  const NODE_CPU := "node_cpu_usage_seconds_total"
  const NODE_MEMORY := "node_memory_working_set_bytes"
  const CONTAINER_CPU := "container_cpu_usage_seconds_total"
  const CONTAINER_MEMORY := "container_memory_working_set_bytes"
  const CONTAINER_START := "container_start_time_seconds"

  predicate HasPrefix(s: string, prefix: string) {
    |prefix| <= |s| && s[..|prefix|] == prefix
  }

  predicate TimeseriesMatchesName(ts: string, name: string) {
    HasPrefix(ts, name) && (|ts| == |name| || ts[|name|] == '{')
  }

  lemma LongerNameHasBrace(ts: string, a: string, b: string)
    requires TimeseriesMatchesName(ts, a) && TimeseriesMatchesName(ts, b)
    ensures |a| < |b| ==> '{' in b
  {
    if |a| < |b| {
      assert ts[|a|] == ts[..|b|][|a|] == b[|a|];
    }
  }

  /** A series matches at most one name, so the order of the cases in decodeBatch does not matter. */
  lemma MatchesAtMostOne(ts: string, a: string, b: string)
    requires '{' !in a && '{' !in b
    requires TimeseriesMatchesName(ts, a) && TimeseriesMatchesName(ts, b)
    ensures a == b
  {
    LongerNameHasBrace(ts, a, b);
    LongerNameHasBrace(ts, b, a);
  }

  lemma NodeNamesHaveNoBrace()
    ensures '{' !in NODE_CPU && '{' !in NODE_MEMORY
  {
  }

  lemma ContainerNamesHaveNoBrace()
    ensures '{' !in CONTAINER_CPU && '{' !in CONTAINER_MEMORY && '{' !in CONTAINER_START
  {
  }

  lemma NamesHaveNoBrace()
    ensures '{' !in NODE_CPU && '{' !in NODE_MEMORY
    ensures '{' !in CONTAINER_CPU && '{' !in CONTAINER_MEMORY && '{' !in CONTAINER_START
  {
    NodeNamesHaveNoBrace();
    ContainerNamesHaveNoBrace();
  }

  // ----- Container labels -----

  const CONTAINER := "container"
  const POD := "pod"
  const NAMESPACE := "namespace"

  function Tag(stem: string): string {
    stem + "=\""
  }

  /** The text between the tag and the next quote.  None is a slice bounds panic; a missing tag makes
      bytes.Index return -1, and the text is then read from a fixed position. */
  function TagValue(labels: string, tag: string): Option<string> {
    var i := Index(labels, tag) + |tag|;
    if i < 0 || i > |labels| then None
    else
      var j := IndexByte(labels[i..], '"');
      if j < 0 || i + j > |labels| then None else Some(labels[i..i + j])
  }

  /** A label text can be cut for a tag exactly when a quote follows the place where the value is looked for:
      the end of the first occurrence of the tag, or one place before the tag's length when there is none. */
  ghost predicate Starts(labels: string, tag: string, start: nat) {
    if exists i: nat :: OccursAt(labels, tag, i) then
      start >= |tag| && OccursAt(labels, tag, start - |tag|) && forall i: nat :: i < start - |tag| ==> !OccursAt(labels, tag, i)
    else start == |tag| - 1
  }

  lemma {:induction false} IndexFinds(s: string, tag: string, i: nat)
    requires i <= |s| + 1
    ensures var at := IndexFrom(s, tag, i);
      && (at == -1 || (i <= at && OccursAt(s, tag, at)))
      && (forall k: nat :: i <= k && (at == -1 || k < at) ==> !OccursAt(s, tag, k))
    decreases |s| + 1 - i
  {
    if i + |tag| <= |s| && s[i..i + |tag|] != tag {
      IndexFinds(s, tag, i + 1);
    }
  }

  lemma StartIsFound(labels: string, tag: string, start: nat)
    requires Starts(labels, tag, start)
    ensures Index(labels, tag) + |tag| == start
  {
    IndexFinds(labels, tag, 0);
  }

  lemma QuoteIsFound(labels: string, start: nat)
    requires start <= |labels|
    ensures var at := IndexByte(labels[start..], '"');
      && -1 <= at < |labels| - start
      && (at >= 0 ==> labels[start + at] == '"')
      && (forall q: nat :: start <= q < |labels| && (at == -1 || q < start + at) ==> labels[q] != '"')
  {
    var rest := labels[start..];
    var at := IndexByte(rest, '"');
    IndexFinds(rest, "\"", 0);
    QuoteInRest(labels, start);
    forall q: nat | start <= q < |labels| && (at == -1 || q < start + at)
      ensures labels[q] != '"'
    {
      assert !OccursAt(rest, "\"", q - start);
    }
  }

  lemma CutsExactly(labels: string, tag: string, start: nat)
    requires tag != "" && Starts(labels, tag, start)
    ensures TagValue(labels, tag).Some? <==> exists q: nat :: start <= q < |labels| && labels[q] == '"'
    ensures TagValue(labels, tag).Some? ==>
              var value := TagValue(labels, tag).value;
              && start + |value| < |labels| && labels[start..start + |value|] == value
              && labels[start + |value|] == '"' && '"' !in value
  {
    StartIsFound(labels, tag, start);
    if start <= |labels| {
      QuoteIsFound(labels, start);
      var at := IndexByte(labels[start..], '"');
      if at >= 0 {
        var value := labels[start..start + at];
        assert TagValue(labels, tag) == Some(value);
        forall k | 0 <= k < |value| ensures value[k] != '"' {
          assert value[k] == labels[start + k];
        }
      }
    }
  }

  lemma QuoteInRest(labels: string, start: nat)
    requires start <= |labels|
    ensures forall k: nat :: OccursAt(labels[start..], "\"", k) <==> start + k < |labels| && labels[start + k] == '"'
  {
    var rest := labels[start..];
    forall k: nat
      ensures OccursAt(rest, "\"", k) <==> start + k < |labels| && labels[start + k] == '"'
    {
      if k < |rest| {
        assert rest[k..k + 1] == [rest[k]];
      }
    }
  }

  /** The pod and the container named by the labels. */
  function ParseContainerLabels(labels: string): Option<(PodRef, string)> {
    match (TagValue(labels, Tag(CONTAINER)), TagValue(labels, Tag(POD)), TagValue(labels, Tag(NAMESPACE)))
    case (Some(container), Some(pod), Some(namespace)) => Some((PodRef(namespace, pod), container))
    case _ => None
  }

  // ----- What was printed is what is read -----

  datatype Label = Label(name: string, value: string)

  /** The separator, the label and whatever follows it; the first separator is the opening brace. */
  function Head(separator: char, pair: Label): string {
    [separator] + pair.name + "=\"" + pair.value + "\""
  }

  function Print(labels: seq<Label>, separator: char): string {
    if labels == [] then "}" else Head(separator, labels[0]) + Print(labels[1..], ',')
  }

  predicate Plain(s: string) {
    '=' !in s && '"' !in s
  }

  ghost predicate Printable(labels: seq<Label>) {
    forall pair <- labels :: Plain(pair.name) && Plain(pair.value)
  }

  predicate EndsWith(s: string, stem: string) {
    |stem| <= |s| && s[|s| - |stem|..] == stem
  }

  /** The value of the first label whose name ends with the stem. */
  function FirstEnding(labels: seq<Label>, stem: string): Option<string> {
    if labels == [] then None
    else if EndsWith(labels[0].name, stem) then Some(labels[0].value)
    else FirstEnding(labels[1..], stem)
  }

  predicate IsStem(stem: string) {
    Plain(stem) && '{' !in stem && ',' !in stem && '}' !in stem
  }

  lemma EqualSignsOfHead(separator: char, pair: Label, k: nat)
    requires separator == '{' || separator == ','
    requires Plain(pair.name) && Plain(pair.value) && k < |Head(separator, pair)|
    ensures Head(separator, pair)[k] == '=' <==> k == 1 + |pair.name|
  {
    var head := Head(separator, pair);
    var n := |pair.name|;
    if 0 < k <= n {
      assert head[k] == pair.name[k - 1];
    } else if n + 2 < k < |head| - 1 {
      assert head[k] == pair.value[k - n - 3];
    }
  }

  /** A tag that begins inside a printed label is the end of that label's name. */
  lemma TagInHead(separator: char, pair: Label, rest: string, stem: string, q: int)
    requires (separator == '{' || separator == ',') && IsStem(stem)
    requires Plain(pair.name) && Plain(pair.value)
    requires q < |Head(separator, pair)| && OccursAt(Head(separator, pair) + rest, Tag(stem), q)
    ensures EndsWith(pair.name, stem) && q == 1 + |pair.name| - |stem|
  {
    var head, tag, m := Head(separator, pair), Tag(stem), |stem|;
    var s := head + rest;
    if |head| <= q + m {
      CharOfOccurrence(s, tag, q, |head| - 1 - q);
    }
    CharOfOccurrence(s, tag, q, m);
    EqualSignsOfHead(separator, pair, q + m);
    CharOfOccurrence(s, tag, q, 0);
    forall k: nat | k < m && 0 < q
      ensures pair.name[q - 1 + k] == stem[k]
    {
      CharOfOccurrence(s, tag, q, k);
    }
    assert pair.name[|pair.name| - m..] == stem;
  }

  /** Reading a tag finds, at this place, this value. */
  ghost predicate Finds(s: string, tag: string, at: nat, value: string) {
    && OccursAt(s, tag, at)
    && (forall k :: 0 <= k < at ==> !OccursAt(s, tag, k))
    && HasPrefix(s[at + |tag|..], value + "\"")
  }

  lemma FindsInHead(separator: char, pair: Label, rest: string, stem: string)
    requires (separator == '{' || separator == ',') && IsStem(stem)
    requires Plain(pair.name) && Plain(pair.value) && EndsWith(pair.name, stem)
    ensures Finds(Head(separator, pair) + rest, Tag(stem), 1 + |pair.name| - |stem|, pair.value)
  {
    var at := 1 + |pair.name| - |stem|;
    var s := Head(separator, pair) + rest;
    TagEndsName(separator, pair, rest, stem);
    forall k | 0 <= k < at
      ensures !OccursAt(s, Tag(stem), k)
    {
      if OccursAt(s, Tag(stem), k) {
        TagInHead(separator, pair, rest, stem, k);
      }
    }
  }

  lemma TagEndsName(separator: char, pair: Label, rest: string, stem: string)
    requires EndsWith(pair.name, stem)
    ensures var s, at := Head(separator, pair) + rest, 1 + |pair.name| - |stem|;
      OccursAt(s, Tag(stem), at) && HasPrefix(s[at + |Tag(stem)|..], pair.value + "\"")
  {
    var at := 1 + |pair.name| - |stem|;
    var s := Head(separator, pair) + rest;
    var front, back := [separator] + pair.name[..at - 1], pair.value + "\"" + rest;
    assert pair.name == pair.name[..at - 1] + stem;
    assert s == front + (Tag(stem) + back);
    assert s[at..at + |Tag(stem)|] == Tag(stem);
    assert s[at + |Tag(stem)|..] == back;
    assert back[..|pair.value| + 1] == pair.value + "\"";
  }

  lemma FindsAfterHead(separator: char, pair: Label, rest: string, stem: string, at: nat, value: string)
    requires (separator == '{' || separator == ',') && IsStem(stem)
    requires Plain(pair.name) && Plain(pair.value) && !EndsWith(pair.name, stem)
    requires Finds(rest, Tag(stem), at, value)
    ensures Finds(Head(separator, pair) + rest, Tag(stem), |Head(separator, pair)| + at, value)
  {
    var head, tag := Head(separator, pair), Tag(stem);
    ShiftOccurrence(head, rest, tag, at);
    ShiftOccurrence(head, rest, tag, at + |tag|);
    forall k | 0 <= k < |head| + at
      ensures !OccursAt(head + rest, tag, k)
    {
      if k < |head| {
        if OccursAt(head + rest, tag, k) {
          TagInHead(separator, pair, rest, stem, k);
        }
      } else {
        ShiftOccurrence(head, rest, tag, k - |head|);
      }
    }
  }

  lemma PrintableParts(labels: seq<Label>)
    requires Printable(labels) && labels != []
    ensures Plain(labels[0].name) && Plain(labels[0].value) && Printable(labels[1..])
  {
    assert labels[0] in labels;
  }

  /** In a printed list the first label whose name ends with the stem is found, with its whole value. */
  lemma {:induction false} FindsFirstEnding(labels: seq<Label>, separator: char, stem: string) returns (at: nat)
    requires (separator == '{' || separator == ',') && IsStem(stem)
    requires Printable(labels) && FirstEnding(labels, stem).Some?
    ensures Finds(Print(labels, separator), Tag(stem), at, FirstEnding(labels, stem).value)
    decreases |labels|
  {
    PrintableParts(labels);
    if EndsWith(labels[0].name, stem) {
      at := 1 + |labels[0].name| - |stem|;
      FindsInFirst(labels, separator, stem);
    } else {
      var later := FindsFirstEnding(labels[1..], ',', stem);
      at := |Head(separator, labels[0])| + later;
      FindsInLater(labels, separator, stem, later);
    }
  }

  lemma FindsInFirst(labels: seq<Label>, separator: char, stem: string)
    requires (separator == '{' || separator == ',') && IsStem(stem) && labels != []
    requires Plain(labels[0].name) && Plain(labels[0].value) && EndsWith(labels[0].name, stem)
    ensures Finds(Print(labels, separator), Tag(stem), 1 + |labels[0].name| - |stem|, FirstEnding(labels, stem).value)
  {
    FindsInHead(separator, labels[0], Print(labels[1..], ','), stem);
  }

  lemma FindsInLater(labels: seq<Label>, separator: char, stem: string, later: nat)
    requires (separator == '{' || separator == ',') && IsStem(stem) && labels != []
    requires Plain(labels[0].name) && Plain(labels[0].value) && !EndsWith(labels[0].name, stem)
    requires FirstEnding(labels[1..], stem).Some?
    requires Finds(Print(labels[1..], ','), Tag(stem), later, FirstEnding(labels[1..], stem).value)
    ensures Finds(Print(labels, separator), Tag(stem), |Head(separator, labels[0])| + later, FirstEnding(labels, stem).value)
  {
    FindsAfterHead(separator, labels[0], Print(labels[1..], ','), stem, later, FirstEnding(labels[1..], stem).value);
  }

  lemma {:induction false} FirstEndingIsPlain(labels: seq<Label>, stem: string)
    requires Printable(labels) && FirstEnding(labels, stem).Some?
    ensures Plain(FirstEnding(labels, stem).value)
  {
    PrintableParts(labels);
    if !EndsWith(labels[0].name, stem) {
      FirstEndingIsPlain(labels[1..], stem);
    }
  }

  lemma QuoteEndsValue(s: string, value: string)
    requires Plain(value) && HasPrefix(s, value + "\"")
    ensures IndexByte(s, '"') == |value| && s[..|value|] == value
  {
    var printed := value + "\"";
    assert s[..|printed|] == printed;
    assert s[|value|] == printed[|value|];
    assert OccursAt(s, "\"", |value|);
    forall k | 0 <= k < |value|
      ensures !OccursAt(s, "\"", k)
    {
      assert s[k] == printed[k] == value[k];
      assert s[k..k + 1][0] == s[k];
    }
    IndexFromIsFirst(s, "\"", 0, |value|);
  }

  lemma TagRoundTrip(labels: seq<Label>, stem: string)
    requires IsStem(stem) && Printable(labels) && FirstEnding(labels, stem).Some?
    ensures TagValue(Print(labels, '{'), Tag(stem)) == FirstEnding(labels, stem)
  {
    var at := FindsFirstEnding(labels, '{', stem);
    FirstEndingIsPlain(labels, stem);
    FoundIsRead(Print(labels, '{'), Tag(stem), at, FirstEnding(labels, stem).value);
  }

  lemma FoundIsRead(s: string, tag: string, at: nat, value: string)
    requires Finds(s, tag, at, value) && Plain(value)
    ensures TagValue(s, tag) == Some(value)
  {
    IndexFromIsFirst(s, tag, 0, at);
    QuoteEndsValue(s[at + |tag|..], value);
    assert s[at + |tag|..][..|value|] == s[at + |tag|..at + |tag| + |value|];
  }

  lemma StemsArePlain()
    ensures IsStem(CONTAINER) && IsStem(POD) && IsStem(NAMESPACE)
  {
  }

  lemma StemsDiffer()
    ensures !EndsWith(NAMESPACE, CONTAINER) && !EndsWith(POD, CONTAINER)
    ensures !EndsWith(CONTAINER, NAMESPACE) && !EndsWith(POD, NAMESPACE)
    ensures !EndsWith(CONTAINER, POD) && !EndsWith(NAMESPACE, POD)
  {
  }

  /** For any list of labels, each of the three values read is that of the first label whose name ends
      with the one looked for. */
  lemma LabelsReadBack(labels: seq<Label>)
    requires Printable(labels)
    requires FirstEnding(labels, CONTAINER).Some? && FirstEnding(labels, POD).Some? && FirstEnding(labels, NAMESPACE).Some?
    ensures ParseContainerLabels(Print(labels, '{'))
            == Some((PodRef(FirstEnding(labels, NAMESPACE).value, FirstEnding(labels, POD).value),
                     FirstEnding(labels, CONTAINER).value))
  {
    StemsArePlain();
    TagRoundTrip(labels, CONTAINER);
    TagRoundTrip(labels, POD);
    TagRoundTrip(labels, NAMESPACE);
  }

  lemma {:induction false} OnlyEnding(labels: seq<Label>, stem: string, pair: Label)
    requires pair in labels && EndsWith(pair.name, stem)
    requires forall other <- labels :: EndsWith(other.name, stem) ==> other == pair
    ensures FirstEnding(labels, stem) == Some(pair.value)
  {
    if labels[0] != pair {
      OnlyEnding(labels[1..], stem, pair);
    }
  }

  /** When no name ends with another, the order of three labels does not matter. */
  lemma FirstOfThree(labels: seq<Label>, a: Label, b: Label, c: Label)
    requires multiset(labels) == multiset{a, b, c}
    requires !EndsWith(b.name, a.name) && !EndsWith(c.name, a.name)
    ensures FirstEnding(labels, a.name) == Some(a.value)
  {
    assert a in multiset(labels);
    forall pair <- labels
      ensures pair == a || pair == b || pair == c
    {
      assert pair in multiset(labels);
    }
    OnlyEnding(labels, a.name, a);
  }

  lemma ThreeArePrintable(labels: seq<Label>, a: Label, b: Label, c: Label)
    requires multiset(labels) == multiset{a, b, c}
    requires Plain(a.name) && Plain(a.value) && Plain(b.name) && Plain(b.value) && Plain(c.name) && Plain(c.value)
    ensures Printable(labels)
  {
    forall pair <- labels
      ensures Plain(pair.name) && Plain(pair.value)
    {
      assert pair in multiset(labels);
    }
  }

  /** The round trip: the three labels may be printed in any order. */
  lemma LabelRoundTrip(labels: seq<Label>, container: string, ref: PodRef)
    requires multiset(labels)
             == multiset{Label("container", container), Label("namespace", ref.namespace), Label("pod", ref.name)}
    requires Plain(container) && Plain(ref.namespace) && Plain(ref.name)
    ensures ParseContainerLabels(Print(labels, '{')) == Some((ref, container))
  {
    var c, n, p := Label(CONTAINER, container), Label(NAMESPACE, ref.namespace), Label(POD, ref.name);
    StemsArePlain();
    StemsDiffer();
    ThreeArePrintable(labels, c, n, p);
    FirstOfThree(labels, c, n, p);
    FirstOfThree(labels, n, c, p);
    FirstOfThree(labels, p, c, n);
    LabelsReadBack(labels);
  }
}
