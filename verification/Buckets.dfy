/** BucketsForScrapeDuration of pkg/utils/monitoring.go, with slices as an array and a length. */
module Buckets {
  predicate Increasing(s: seq<real>) {
    forall i: nat, j: nat :: i < j < |s| ==> s[i] < s[j]
  }

  /** s can be had from r by leaving elements out. */
  predicate IsSubsequence(s: seq<real>, r: seq<real>)
    decreases |r|
  {
    s == [] ||
    (r != [] &&
     IsSubsequence(if s[|s| - 1] == r[|r| - 1] then s[..|s| - 1] else s, r[..|r| - 1]))
  }

  predicate Close(a: real, b: real, tolerance: real) {
    -tolerance < a - b < tolerance
  }

  ghost predicate HasNear(s: seq<real>, x: real, tolerance: real) {
    exists i: nat :: i < |s| && Close(s[i], x, tolerance)
  }

  /** Go's append: in place while the capacity suffices, otherwise into a new and possibly larger array. */
  method Append(a: array<real>, n: nat, items: seq<real>) returns (b: array<real>, m: nat)
    requires n <= a.Length
    modifies a
    ensures m == n + |items| <= b.Length && b[..m] == old(a[..n]) + items
    ensures if m <= a.Length then b == a && a[m..] == old(a[m..]) else fresh(b) && a[..] == old(a[..])
  {
    m := n + |items|;
    b := a;
    if a.Length < m {
      var spare: nat :| spare >= 0;
      b := new real[m + spare];
      for k := 0 to n
        invariant b[..k] == a[..k] && a[..] == old(a[..])
      {
        b[k] := a[k];
      }
    }
    for k := 0 to |items|
      invariant b[..n + k] == old(a[..n]) + items[..k]
      invariant if m <= a.Length then a[m..] == old(a[m..]) else a[..] == old(a[..])
    {
      b[n + k] := items[k];
    }
  }

  /** defBuckets is the library's list, which is left as it was. */
  method BucketsForScrapeDuration(defBuckets: array<real>, timeout: real) returns (buckets: array<real>, n: nat)
    requires defBuckets.Length > 0 && defBuckets[0] > 0.0 && Increasing(defBuckets[..])
    ensures fresh(buckets) && n <= buckets.Length
    ensures Scheduled(defBuckets[..], timeout, buckets[..n])
  {
    ghost var base := defBuckets[..];
    var empty := new real[0];
    buckets, n := Append(empty, 0, defBuckets[..]);
    assert buckets[..n] == base;
    var maxBucket := buckets[n - 1];
    if timeout > maxBucket {
      var halfway := maxBucket + (timeout - maxBucket) / 2.0;
      buckets, n := Append(buckets, n, [halfway, timeout, timeout * 1.5, timeout * 2.0]);
    } else if timeout < maxBucket {
      buckets, n := InjectTimeout(buckets, n, timeout);
    }
  }

  /** The case of a timeout below the last bucket. */
  method InjectTimeout(buckets: array<real>, n: nat, timeout: real) returns (result: array<real>, m: nat)
    requires 0 < n <= buckets.Length && buckets[0] > 0.0 && Increasing(buckets[..n]) && timeout < buckets[n - 1]
    modifies buckets
    ensures m <= result.Length && (result == buckets || fresh(result))
    ensures Scheduled(old(buckets[..n]), timeout, result[..m])
  {
    ghost var base := buckets[..n];
    var i := 0;
    while buckets[i] <= timeout
      invariant i < n
      invariant forall k: nat :: k < i ==> base[k] <= timeout
      decreases n - i
    {
      i := i + 1;
    }
    var bucket := buckets[i];
    NeighboursDecide(base, timeout, i);
    if bucket - timeout < buckets[0] || (i > 0 && timeout - buckets[i - 1] < buckets[0]) {
      return buckets, n;
    }
    assert buckets[..i] == base[..i] && buckets[i..n] == base[i..];
    result, m := InsertAt(buckets, n, i, timeout);
  }

  /** The rest is copied first, because the first append overwrites it in place. */
  method InsertAt(buckets: array<real>, n: nat, i: nat, x: real) returns (result: array<real>, m: nat)
    requires i < n <= buckets.Length
    modifies buckets
    ensures m <= result.Length && (result == buckets || fresh(result))
    ensures result[..m] == old(buckets[..i]) + [x] + old(buckets[i..n])
  {
    var empty := new real[0];
    var oldRest, restLength := Append(empty, 0, buckets[i..n]);
    result, m := Append(buckets, i, [x]);
    result, m := Append(result, m, oldRest[..restLength]);
  }

  /** What the buckets must be.  With a bucket near the timeout, or the timeout equal to the last bucket,
      nothing is added. */
  ghost predicate Scheduled(base: seq<real>, timeout: real, result: seq<real>)
    requires base != []
  {
    var max := base[|base| - 1];
    if timeout > max then
      result == base + [max + (timeout - max) / 2.0, timeout, timeout * 1.5, timeout * 2.0]
    else if timeout == max || HasNear(base, timeout, base[0]) then
      result == base
    else
      Increasing(result) && multiset(result) == multiset(base) + multiset{timeout}
  }

  /** The two neighbours decide whether any bucket is near. */
  lemma NearestDecide(base: seq<real>, timeout: real, i: nat)
    requires i < |base| && Increasing(base) && base[0] > 0.0 && timeout < base[i]
    requires forall k: nat :: k < i ==> base[k] <= timeout
    ensures HasNear(base, timeout, base[0])
            <==> base[i] - timeout < base[0] || (i > 0 && timeout - base[i - 1] < base[0])
  {
    if base[i] - timeout < base[0] {
      assert Close(base[i], timeout, base[0]);
    }
    if i > 0 && timeout - base[i - 1] < base[0] {
      assert Close(base[i - 1], timeout, base[0]);
    }
  }

  lemma NeighboursDecide(base: seq<real>, timeout: real, i: nat)
    requires i < |base| && Increasing(base) && base[0] > 0.0 && timeout < base[i]
    requires forall k: nat :: k < i ==> base[k] <= timeout
    ensures if base[i] - timeout < base[0] || (i > 0 && timeout - base[i - 1] < base[0])
            then Scheduled(base, timeout, base)
            else Scheduled(base, timeout, base[..i] + [timeout] + base[i..])
  {
    NearestDecide(base, timeout, i);
    if !HasNear(base, timeout, base[0]) {
      InsertionKeepsAll(base, timeout, i);
    }
  }

  lemma InsertionKeepsAll(base: seq<real>, timeout: real, i: nat)
    requires i < |base| && Increasing(base) && timeout < base[i]
    requires forall k: nat :: k < i ==> base[k] < timeout
    ensures var result := base[..i] + [timeout] + base[i..];
      Increasing(result) && multiset(result) == multiset(base) + multiset{timeout}
  {
    assert base == base[..i] + base[i..];
  }

  // ----- What every such schedule has -----

  lemma {:induction false} ContainmentIsSubsequence(s: seq<real>, r: seq<real>)
    requires Increasing(s) && Increasing(r) && forall x :: x in s ==> x in r
    ensures IsSubsequence(s, r)
    decreases |r|
  {
    if s != [] {
      assert s[|s| - 1] in s && s[|s| - 1] in r;
      var shorter, rest := if s[|s| - 1] == r[|r| - 1] then s[..|s| - 1] else s, r[..|r| - 1];
      forall x | x in shorter
        ensures x in rest
      {
        var k: nat :| k < |shorter| && shorter[k] == x;
        assert s[k] == x && x in s && x in r;
        var j: nat :| j < |r| && r[j] == x;
        var last: nat :| last < |r| && r[last] == s[|s| - 1];
        assert j < |r| - 1;
        assert rest[j] == x;
      }
      ContainmentIsSubsequence(shorter, rest);
    }
  }

  /** The buckets stay sorted, keep the whole base list, and cover the timeout. */
  lemma ScheduleIsSortedAndCovers(base: seq<real>, timeout: real, result: seq<real>)
    requires base != [] && base[0] > 0.0 && Increasing(base) && Scheduled(base, timeout, result)
    ensures Increasing(result) && IsSubsequence(base, result)
    ensures timeout in result || HasNear(result, timeout, base[0])
  {
    var max := base[|base| - 1];
    forall x | x in base
      ensures x in result
    {
      assert x in base && x in multiset(base);
      assert timeout <= max && result != base ==> x in multiset(result);
      if timeout > max {
        var k: nat :| k < |base| && base[k] == x;
        assert result[k] == x;
      }
    }
    if timeout > max {
      assert result[|base| + 1] == timeout;
      Widened(base, timeout);
    } else if timeout != max && !HasNear(base, timeout, base[0]) {
      assert timeout in multiset(result);
    }
    ContainmentIsSubsequence(base, result);
  }

  lemma Widened(base: seq<real>, timeout: real)
    requires base != [] && base[0] > 0.0 && Increasing(base) && timeout > base[|base| - 1]
    ensures var max := base[|base| - 1];
      Increasing(base + [max + (timeout - max) / 2.0, timeout, timeout * 1.5, timeout * 2.0])
  {
    var max := base[|base| - 1];
    assert 0.0 < base[0] <= max;
  }

  /** The schedule is determined by the base list and the timeout. */
  lemma ScheduleIsUnique(base: seq<real>, timeout: real, a: seq<real>, b: seq<real>)
    requires base != [] && Scheduled(base, timeout, a) && Scheduled(base, timeout, b)
    ensures a == b
  {
    if a != b {
      SortedIsUnique(a, b);
    }
  }

  lemma {:induction false} SortedIsUnique(a: seq<real>, b: seq<real>)
    requires Increasing(a) && Increasing(b) && multiset(a) == multiset(b)
    ensures a == b
    decreases |a|
  {
    assert |a| == |multiset(a)| == |multiset(b)| == |b|;
    if a != [] {
      var n := |a| - 1;
      LastsAgree(a, b);
      SortedIsUnique(a[..n], b[..n]);
      assert a == a[..n] + [a[n]] && b == b[..n] + [b[n]];
    }
  }

  lemma LastsAgree(a: seq<real>, b: seq<real>)
    requires Increasing(a) && Increasing(b) && multiset(a) == multiset(b) && |a| == |b| > 0
    ensures var n := |a| - 1;
      a[n] == b[n] && multiset(a[..n]) == multiset(b[..n]) && Increasing(a[..n]) && Increasing(b[..n])
  {
    var n := |a| - 1;
    NotAboveLast(a, b[n]);
    NotAboveLast(b, a[n]);
    DropLast(a);
    DropLast(b);
    IncreasingPrefix(a, n);
    IncreasingPrefix(b, n);
  }

  lemma IncreasingPrefix(s: seq<real>, n: nat)
    requires Increasing(s) && n <= |s|
    ensures Increasing(s[..n])
  {
  }

  lemma NotAboveLast(s: seq<real>, x: real)
    requires s != [] && Increasing(s) && x in multiset(s)
    ensures x <= s[|s| - 1]
  {
    var k: nat :| k < |s| && s[k] == x;
  }

  lemma DropLast(s: seq<real>)
    requires s != []
    ensures multiset(s[..|s| - 1]) == multiset(s) - multiset{s[|s| - 1]}
  {
    assert s == s[..|s| - 1] + [s[|s| - 1]];
  }
}
