/** Shuffling the drained target list and cutting it into one shard per worker. */
module Shard {
  import opened ScanTypes

  // Where shard i begins when n shards share len elements.
  function Start(len: nat, n: nat, i: nat): nat
    requires n > 0
  {
    i * (len / n) + Min(i, len % n)
  }

  function Flatten<T>(ss: seq<seq<T>>): seq<T> {
    if ss == [] then [] else Flatten(ss[..|ss| - 1]) + ss[|ss| - 1]
  }

  lemma {:induction false} StartIsMonotone(len: nat, n: nat, i: nat)
    requires n > 0 && i < n
    ensures Start(len, n, i + 1) == Start(len, n, i) + len / n + (if i < len % n then 1 else 0)
    ensures Start(len, n, i) <= Start(len, n, i + 1) <= Start(len, n, n) == len
    decreases n - i
  {
    assert (i + 1) * (len / n) == i * (len / n) + len / n;
    if i + 1 < n {
      StartIsMonotone(len, n, i + 1);
    } else {
      assert n * (len / n) + len % n == len;
    }
  }

  function Slice<T>(ts: seq<T>, n: nat, i: nat): seq<T>
    requires i < n
  {
    StartIsMonotone(|ts|, n, i);
    ts[Start(|ts|, n, i)..Start(|ts|, n, i + 1)]
  }

  // The n shards of ts, each cut where Start says.
  function Cut<T>(ts: seq<T>, n: nat): (shards: seq<seq<T>>)
    ensures |shards| == n
  {
    seq(n, i requires 0 <= i < n => Slice(ts, n, i))
  }

  // Divides ts into n contiguous shards, the first |ts| % n of them one longer.
  method SplitEven<T>(ts: seq<T>, n: nat) returns (shards: seq<seq<T>>)
    ensures shards == Cut(ts, n)
  {
    var cut := new seq<T>[n](_ => []);
    if n == 0 {
      return cut[..];
    }
    var base, excess := |ts| / n, |ts| % n;
    var start := 0;
    for i := 0 to n
      invariant start == Start(|ts|, n, i) <= |ts|
      invariant forall k :: 0 <= k < i ==> cut[k] == Slice(ts, n, k)
    {
      var size := base;
      if i < excess {
        size := size + 1;
      }
      StartIsMonotone(|ts|, n, i);
      cut[i] := ts[start..start + size];
      start := start + size;
    }
    shards := cut[..];
  }

  predicate SliceAt<T(==)>(ts: seq<T>, ss: seq<seq<T>>, starts: seq<nat>, i: nat)
    requires |starts| == |ss| + 1 && i < |ss|
  {
    starts[i] <= starts[i + 1] <= |ts| && ss[i] == ts[starts[i]..starts[i + 1]]
  }

  // Contiguous slices, joined from the first to the k-th, are a prefix of the list they cut.
  lemma {:induction false} FlattenSlices<T>(ts: seq<T>, ss: seq<seq<T>>, starts: seq<nat>, k: nat)
    requires |starts| == |ss| + 1 && k <= |ss| && starts[0] == 0
    requires forall i :: 0 <= i < |ss| ==> SliceAt(ts, ss, starts, i)
    ensures starts[k] <= |ts| && Flatten(ss[..k]) == ts[..starts[k]]
  {
    if k > 0 {
      FlattenSlices(ts, ss, starts, k - 1);
      assert SliceAt(ts, ss, starts, k - 1);
      assert ss[..k][..k - 1] == ss[..k - 1];
      assert ts[..starts[k - 1]] + ts[starts[k - 1]..starts[k]] == ts[..starts[k]];
    }
  }

  // The shards joined in index order are the list itself: nothing lost, repeated or reordered.
  lemma CutIsPartition<T>(ts: seq<T>, n: nat)
    requires n > 0
    ensures Flatten(Cut(ts, n)) == ts
  {
    var starts: seq<nat> := seq(n + 1, i requires 0 <= i <= n => Start(|ts|, n, i));
    forall i | 0 <= i < n
      ensures SliceAt(ts, Cut(ts, n), starts, i)
    {
      StartIsMonotone(|ts|, n, i);
    }
    FlattenSlices(ts, Cut(ts, n), starts, n);
    StartIsMonotone(|ts|, n, n - 1);
    assert Cut(ts, n)[..n] == Cut(ts, n);
  }

  // No two shards differ by more than one element, and no later shard is the longer.
  lemma CutIsEven<T>(ts: seq<T>, n: nat, i: nat, j: nat)
    requires i <= j < n
    ensures |Cut(ts, n)[j]| <= |Cut(ts, n)[i]| <= |Cut(ts, n)[j]| + 1
  {
    StartIsMonotone(|ts|, n, i);
    StartIsMonotone(|ts|, n, j);
  }

  lemma {:induction false} FlattenContains<T>(ss: seq<seq<T>>, x: T)
    ensures x in Flatten(ss) <==> exists i :: 0 <= i < |ss| && x in ss[i]
  {
    if ss != [] {
      var front := ss[..|ss| - 1];
      FlattenContains(front, x);
      if x in Flatten(front) {
        var i :| 0 <= i < |front| && x in front[i];
        assert x in ss[i];
      } else if exists i :: 0 <= i < |ss| && x in ss[i] {
        var i :| 0 <= i < |ss| && x in ss[i];
        assert i == |ss| - 1 || x in front[i];
      }
    }
  }

  // One swap of rand.Shuffle, and a whole shuffle as the swaps it happened to make.
  function Swapped<T>(ts: seq<T>, i: nat, j: nat): seq<T>
    requires i < |ts| && j < |ts|
  {
    ts[i := ts[j]][j := ts[i]]
  }

  // picks[k] is the index drawn when position |ts|-1-k is settled; an index drawn out of
  // range, or a missing one, leaves the element where it is.
  function Shuffled<T>(ts: seq<T>, picks: seq<nat>): (r: seq<T>)
    ensures |r| == |ts|
    decreases |picks|
  {
    if picks == [] then ts
    else
      var r := Shuffled(ts, picks[..|picks| - 1]);
      var i := |ts| - |picks|;
      var j := picks[|picks| - 1];
      if 0 < i && j <= i then Swapped(r, i, j) else r
  }

  lemma {:induction false} ShufflePermutes<T>(ts: seq<T>, picks: seq<nat>)
    ensures multiset(Shuffled(ts, picks)) == multiset(ts)
  {
    if picks != [] {
      ShufflePermutes(ts, picks[..|picks| - 1]);
    }
  }

  // In two lists of the same elements that agree after position i, what one holds at i the other
  // holds there or before.
  lemma FoundBefore<T>(r: seq<T>, goal: seq<T>, i: nat) returns (j: nat)
    requires multiset(r) == multiset(goal) && i < |r| == |goal| && r[i + 1..] == goal[i + 1..]
    ensures j <= i && r[j] == goal[i]
  {
    var tail := multiset(r[i + 1..]);
    assert r == r[..i + 1] + r[i + 1..] && goal == goal[..i + 1] + goal[i + 1..];
    assert multiset(r) - tail == multiset(r[..i + 1]) && multiset(goal) - tail == multiset(goal[..i + 1]);
    assert goal[..i + 1][i] in multiset(r[..i + 1]);
    j :| 0 <= j < i + 1 && r[..i + 1][j] == goal[i];
  }

  lemma {:induction false} SettleLast<T>(ts: seq<T>, goal: seq<T>, k: nat) returns (picks: seq<nat>)
    requires multiset(goal) == multiset(ts) && k <= |ts| == |goal|
    ensures |picks| == k && Shuffled(ts, picks)[|ts| - k..] == goal[|ts| - k..]
  {
    picks := [];
    if k > 0 {
      picks := SettleLast(ts, goal, k - 1);
      var r, i := Shuffled(ts, picks), |ts| - k;
      ShufflePermutes(ts, picks);
      var j := FoundBefore(r, goal, i);
      assert (picks + [j])[..k - 1] == picks;
      picks := picks + [j];
      assert Shuffled(ts, picks)[i + 1..] == r[i + 1..];
      assert Shuffled(ts, picks)[i..] == [goal[i]] + goal[i + 1..] == goal[i..];
    }
  }

  // The draws can put the list in any order.
  lemma EveryOrderIsDrawn<T>(ts: seq<T>, goal: seq<T>) returns (picks: seq<nat>)
    requires multiset(goal) == multiset(ts)
    ensures Shuffled(ts, picks) == goal
  {
    assert |goal| == |multiset(goal)| == |ts|;
    picks := SettleLast(ts, goal, |ts|);
  }

  // The shards of a shuffled list, joined in index order, are a permutation of that list.
  lemma ShardsPartitionTheTargets<T>(ts: seq<T>, picks: seq<nat>, n: nat)
    requires n > 0
    ensures multiset(Flatten(Cut(Shuffled(ts, picks), n))) == multiset(ts)
  {
    ShufflePermutes(ts, picks);
    CutIsPartition(Shuffled(ts, picks), n);
  }
}
