/** Scrape of pkg/scraper/scraper.go: one reply per node, merged in the order of arrival. */
module Scraper {
  import opened Options
  import opened MetricsTypes
  import Decode

  /** What a node's goroutine sends; None is a nil batch after a failed request. */
  type Reply = Option<Batch>

  function NodesIn(replies: seq<Reply>): (maps: seq<map<string, MetricsPoint>>)
    ensures |maps| == |replies|
  {
    seq(|replies|, i requires 0 <= i < |replies| => if replies[i].Some? then replies[i].value.nodes else map[])
  }

  function PodsIn(replies: seq<Reply>): (maps: seq<map<PodRef, Containers>>)
    ensures |maps| == |replies|
  {
    seq(|replies|, i requires 0 <= i < |replies| => if replies[i].Some? then replies[i].value.pods else map[])
  }

  // ----- Arrival orders -----

  ghost predicate Distinct(order: seq<nat>) {
    forall i: nat, j: nat :: i < j < |order| ==> order[i] != order[j]
  }

  ghost predicate InRange(order: seq<nat>, n: nat) {
    forall i: nat :: i < |order| ==> order[i] < n
  }

  /** Every one of the n replies arrives, once. */
  ghost predicate IsOrder(order: seq<nat>, n: nat) {
    InRange(order, n) && Distinct(order) && forall i: nat :: i < n ==> i in order
  }

  /** The maps merged in this order; a key keeps its first value. */
  function Merged<K, V>(maps: seq<map<K, V>>, order: seq<nat>): map<K, V>
    requires forall i: nat :: i < |order| ==> order[i] < |maps|
    decreases |order|
  {
    if order == [] then map[]
    else maps[order[|order| - 1]] + Merged(maps, order[..|order| - 1])
  }

  // ----- The code -----

  method AddMissing<K, V>(into: map<K, V>, from: map<K, V>) returns (result: map<K, V>)
    ensures result == from + into
  {
    result := into;
    var todo := from.Keys;
    while todo != {}
      invariant todo <= from.Keys
      invariant result.Keys == into.Keys + (from.Keys - todo)
      invariant forall k :: k in result ==> result[k] == (if k in into then into[k] else from[k])
    {
      var k :| k in todo;
      todo := todo - {k};
      if k !in result {
        result := result[k := from[k]];
      }
    }
  }

  /** The goroutines still to send, the buffered channel and the receiving loop, in any interleaving.
      The channel never holds more than one reply per node, so no send blocks; when the loop ends and
      the channel is closed, every node's reply has been sent and received. */
  method Scrape(replies: seq<Reply>) returns (result: Batch, order: seq<nat>)
    ensures IsOrder(order, |replies|) && |order| == |replies|
    ensures result == Batch(Merged(NodesIn(replies), order), Merged(PodsIn(replies), order))
  {
    var n := |replies|;
    var pending := Below(n);
    var channel: seq<nat> := [];
    var nodes, pods := map[], map[];
    order := [];
    while |order| < n
      invariant Underway(n, pending, channel, order)
      invariant nodes == Merged(NodesIn(replies), order) && pods == Merged(PodsIn(replies), order)
      decreases |pending|, n - |order|
    {
      var sendFirst: bool := *;
      if |pending| != 0 && (sendFirst || channel == []) {
        var i :| i in pending;
        SendKeeps(n, pending, channel, order, i);
        pending, channel := pending - {i}, channel + [i];
      } else {
        var i := channel[0];
        ReceiveKeeps(n, pending, channel, order);
        assert (order + [i])[..|order|] == order;
        order, channel := order + [i], channel[1..];
        if replies[i].Some? {
          nodes := AddMissing(nodes, replies[i].value.nodes);
          pods := AddMissing(pods, replies[i].value.pods);
        }
      }
    }
    assert |channel| == 0 && |pending| == 0;
    assert channel == [] && pending == {};
    assert order + channel == order;
    result := Batch(nodes, pods);
  }

  function Below(n: nat): (numbers: set<nat>)
    ensures forall i: nat :: i in numbers <==> i < n
    ensures |numbers| == n
  {
    if n == 0 then {} else Below(n - 1) + {n - 1}
  }

  /** Every reply is still to be sent, in the channel or received. */
  ghost predicate Underway(n: nat, pending: set<nat>, channel: seq<nat>, order: seq<nat>) {
    && Distinct(order + channel) && InRange(order + channel, n) && InRange(order, n)
    && (forall i: nat :: i < n ==> (i in order + channel <==> i !in pending))
    && (forall i :: i in pending ==> i < n)
    && |order| + |channel| + |pending| == n
  }

  lemma SendKeeps(n: nat, pending: set<nat>, channel: seq<nat>, order: seq<nat>, i: nat)
    requires Underway(n, pending, channel, order) && i in pending
    ensures Underway(n, pending - {i}, channel + [i], order)
  {
    assert order + (channel + [i]) == order + channel + [i];
    assert i !in order + channel;
  }

  lemma ReceiveKeeps(n: nat, pending: set<nat>, channel: seq<nat>, order: seq<nat>)
    requires Underway(n, pending, channel, order) && channel != []
    ensures channel[0] < n && Underway(n, pending, channel[1..], order + [channel[0]])
  {
    assert order + [channel[0]] + channel[1..] == order + channel;
    assert (order + channel)[|order|] == channel[0];
  }

  // ----- What the merged map holds -----

  ghost predicate FirstAt<K, V>(maps: seq<map<K, V>>, order: seq<nat>, k: K, p: nat)
    requires InRange(order, |maps|)
  {
    p < |order| && k in maps[order[p]] && forall q: nat :: q < p ==> k !in maps[order[q]]
  }

  /** Each key holds the value of the first reply that has it. */
  lemma {:induction false} FirstReplyWins<K, V>(maps: seq<map<K, V>>, order: seq<nat>, k: K, p: nat)
    requires InRange(order, |maps|) && FirstAt(maps, order, k, p)
    ensures k in Merged(maps, order) && Merged(maps, order)[k] == maps[order[p]][k]
    decreases |order|
  {
    var before := order[..|order| - 1];
    if p < |before| {
      assert FirstAt(maps, before, k, p);
      FirstReplyWins(maps, before, k, p);
    } else {
      NoReplyNoKey(maps, before, k);
    }
  }

  lemma {:induction false} NoReplyNoKey<K, V>(maps: seq<map<K, V>>, order: seq<nat>, k: K)
    requires InRange(order, |maps|) && forall q: nat :: q < |order| ==> k !in maps[order[q]]
    ensures k !in Merged(maps, order)
    decreases |order|
  {
    if order != [] {
      NoReplyNoKey(maps, order[..|order| - 1], k);
    }
  }

  lemma {:induction false} FirstExists<K, V>(maps: seq<map<K, V>>, order: seq<nat>, k: K, q: nat) returns (p: nat)
    requires InRange(order, |maps|) && q < |order| && k in maps[order[q]]
    ensures p <= q && FirstAt(maps, order, k, p)
    decreases q
  {
    if r: nat :| r < q && k in maps[order[r]] {
      p := FirstExists(maps, order, k, r);
    } else {
      p := q;
    }
  }

  ghost predicate InSome<K, V>(maps: seq<map<K, V>>, k: K) {
    exists i: nat :: i < |maps| && k in maps[i]
  }

  /** The keys are the union over all replies, and each value is that of one of them. */
  lemma KeysAreTheUnion<K, V>(maps: seq<map<K, V>>, order: seq<nat>, k: K)
    requires IsOrder(order, |maps|)
    ensures k in Merged(maps, order) <==> InSome(maps, k)
    ensures k in Merged(maps, order) ==> exists i: nat :: i < |maps| && k in maps[i] && Merged(maps, order)[k] == maps[i][k]
  {
    if InSome(maps, k) {
      var i: nat :| i < |maps| && k in maps[i];
      assert i in order;
      var q: nat :| q < |order| && order[q] == i;
      var p := FirstExists(maps, order, k, q);
      FirstReplyWins(maps, order, k, p);
    } else {
      NoReplyNoKey(maps, order, k);
    }
  }

  /** Said of the replies themselves: the reply at position p of the order is the first to have the node. */
  ghost predicate FirstWithNode(replies: seq<Reply>, order: seq<nat>, name: string, p: nat)
    requires InRange(order, |replies|)
  {
    && p < |order| && replies[order[p]].Some? && name in replies[order[p]].value.nodes
    && forall q: nat :: q < p && replies[order[q]].Some? ==> name !in replies[order[q]].value.nodes
  }

  ghost predicate FirstWithPod(replies: seq<Reply>, order: seq<nat>, ref: PodRef, p: nat)
    requires InRange(order, |replies|)
  {
    && p < |order| && replies[order[p]].Some? && ref in replies[order[p]].value.pods
    && forall q: nat :: q < p && replies[order[q]].Some? ==> ref !in replies[order[q]].value.pods
  }

  /** A node is in the result with the point of the first reply that has it, and a node in no reply is not. */
  lemma NodeComesFromFirst(replies: seq<Reply>, order: seq<nat>, name: string)
    requires IsOrder(order, |replies|)
    ensures forall p: nat :: FirstWithNode(replies, order, name, p) ==>
      name in Merged(NodesIn(replies), order) && Merged(NodesIn(replies), order)[name] == replies[order[p]].value.nodes[name]
    ensures (forall i: nat :: i < |replies| && replies[i].Some? ==> name !in replies[i].value.nodes) ==>
      name !in Merged(NodesIn(replies), order)
  {
    forall p: nat | FirstWithNode(replies, order, name, p)
      ensures name in Merged(NodesIn(replies), order)
      ensures Merged(NodesIn(replies), order)[name] == replies[order[p]].value.nodes[name]
    {
      FirstReplyWins(NodesIn(replies), order, name, p);
    }
    if forall i: nat :: i < |replies| && replies[i].Some? ==> name !in replies[i].value.nodes {
      NoReplyNoKey(NodesIn(replies), order, name);
    }
  }

  /** The same for pods. */
  lemma PodComesFromFirst(replies: seq<Reply>, order: seq<nat>, ref: PodRef)
    requires IsOrder(order, |replies|)
    ensures forall p: nat :: FirstWithPod(replies, order, ref, p) ==>
      ref in Merged(PodsIn(replies), order) && Merged(PodsIn(replies), order)[ref] == replies[order[p]].value.pods[ref]
    ensures (forall i: nat :: i < |replies| && replies[i].Some? ==> ref !in replies[i].value.pods) ==>
      ref !in Merged(PodsIn(replies), order)
  {
    forall p: nat | FirstWithPod(replies, order, ref, p)
      ensures ref in Merged(PodsIn(replies), order)
      ensures Merged(PodsIn(replies), order)[ref] == replies[order[p]].value.pods[ref]
    {
      FirstReplyWins(PodsIn(replies), order, ref, p);
    }
    if forall i: nat :: i < |replies| && replies[i].Some? ==> ref !in replies[i].value.pods {
      NoReplyNoKey(PodsIn(replies), order, ref);
    }
  }

  // ----- Schedules -----

  /** No two replies give different values for the same key. */
  ghost predicate Agree<K, V>(maps: seq<map<K, V>>) {
    forall i: nat, j: nat, k :: i < |maps| && j < |maps| && k in maps[i] && k in maps[j] ==> maps[i][k] == maps[j][k]
  }

  ghost predicate ScheduleIndependent<K, V>(maps: seq<map<K, V>>) {
    forall a: seq<nat>, b: seq<nat> :: IsOrder(a, |maps|) && IsOrder(b, |maps|) ==> Merged(maps, a) == Merged(maps, b)
  }

  lemma NothingExtra<K, V>(maps: seq<map<K, V>>, a: seq<nat>, b: seq<nat>)
    requires Agree(maps) && IsOrder(a, |maps|) && IsOrder(b, |maps|)
    ensures forall k :: k in Merged(maps, a) ==> k in Merged(maps, b) && Merged(maps, b)[k] == Merged(maps, a)[k]
  {
    forall k | k in Merged(maps, a)
      ensures k in Merged(maps, b) && Merged(maps, b)[k] == Merged(maps, a)[k]
    {
      KeysAreTheUnion(maps, a, k);
      KeysAreTheUnion(maps, b, k);
    }
  }

  /** The result is the same for every order of arrival exactly when the replies agree. */
  lemma ScheduleIndependentExactly<K, V>(maps: seq<map<K, V>>)
    ensures ScheduleIndependent(maps) <==> Agree(maps)
  {
    if Agree(maps) {
      forall a: seq<nat>, b: seq<nat> | IsOrder(a, |maps|) && IsOrder(b, |maps|)
        ensures Merged(maps, a) == Merged(maps, b)
      {
        NothingExtra(maps, a, b);
        NothingExtra(maps, b, a);
        assert Merged(maps, a) == Merged(maps, b);
      }
    }
    if ScheduleIndependent(maps) {
      forall i: nat, j: nat, k | i < |maps| && j < |maps| && k in maps[i] && k in maps[j]
        ensures maps[i][k] == maps[j][k]
      {
        var a := StartingWith(i, |maps|);
        var b := StartingWith(j, |maps|);
        FirstReplyWins(maps, a, k, 0);
        FirstReplyWins(maps, b, k, 0);
        assert Merged(maps, a) == Merged(maps, b);
      }
    }
  }

  function Range(from: nat, to: nat): seq<nat>
    requires from <= to
  {
    seq(to - from, i requires 0 <= i => from + i)
  }

  /** An order in which reply i arrives first. */
  lemma StartingWith(i: nat, n: nat) returns (order: seq<nat>)
    requires i < n
    ensures IsOrder(order, n) && |order| > 0 && order[0] == i
  {
    order := [i] + Range(0, i) + Range(i + 1, n);
    forall m: nat | m < n
      ensures m in order
    {
      assert m < i ==> order[1 + m] == m;
      assert m > i ==> order[m] == m;
    }
  }

  // ----- Nodes and pods of a cluster -----

  /** A decoded batch holds at most its own node. */
  lemma DecodedHoldsOwnNode(entries: seq<Decode.Entry>, env: Decode.Env, nodeName: string)
    ensures var batch := Decode.Decoding(entries, env, nodeName);
      batch.Some? ==> batch.value.nodes.Keys <= {nodeName}
  {
  }

  ghost predicate OwnNodeOnly(names: seq<string>, replies: seq<Reply>) {
    |names| == |replies| && forall i: nat :: i < |replies| && replies[i].Some? ==> replies[i].value.nodes.Keys <= {names[i]}
  }

  ghost predicate NoPodTwice(replies: seq<Reply>) {
    forall i: nat, j: nat, ref :: i < j < |replies| && replies[i].Some? && replies[j].Some? ==>
      !(ref in replies[i].value.pods && ref in replies[j].value.pods)
  }

  /** With distinct node names the node map does not depend on the schedule, and with no pod reported
      twice neither does the pod map. */
  lemma MergeIsScheduleIndependent(names: seq<string>, replies: seq<Reply>)
    requires OwnNodeOnly(names, replies)
    requires forall i: nat, j: nat :: i < j < |names| ==> names[i] != names[j]
    ensures ScheduleIndependent(NodesIn(replies))
    ensures NoPodTwice(replies) ==> ScheduleIndependent(PodsIn(replies))
  {
    forall i: nat, k | i < |replies| && k in NodesIn(replies)[i]
      ensures k == names[i]
    {
    }
    ScheduleIndependentExactly(NodesIn(replies));
    if NoPodTwice(replies) {
      forall i: nat, j: nat, ref | i < |replies| && j < |replies| && ref in PodsIn(replies)[i] && ref in PodsIn(replies)[j]
        ensures i == j
      {
      }
      ScheduleIndependentExactly(PodsIn(replies));
    }
  }
}
