/** The coordinator: the rendezvous, the pending map, and the records it feeds to its sink. */
module Coordinator {
  import opened ScanTypes
  import opened PendingKey
  import opened Convert
  import opened Counting
  import Shard
  import Sink

  datatype Coord = Coord(workers: nat, arrived: nat, shards: seq<seq<Target>>, ready: bool,
                         aborted: bool, timerFired: bool, pending: map<string, Target>)

  function NewCoord(workers: nat): Coord {
    Coord(workers, 0, [], false, false, false, map[])
  }

  // A GetTargets caller registers. The list it would drain and the shuffle it would draw
  // matter only to the last of them.
  function Registered(c: Coord, drained: seq<Target>, picks: seq<nat>): (Coord, Option<nat>) {
    if c.arrived >= c.workers then (c, None)
    else
      var c1 := c.(arrived := c.arrived + 1);
      if c1.arrived < c.workers then (c1, Some(c.arrived))
      else
        var ts := Shard.Shuffled(drained, picks);
        (c1.(shards := Shard.Cut(ts, c.workers), pending := c.pending + PendingOf(ts), ready := true), Some(c.arrived))
  }

  // The register timeout elapses.
  function TimedOut(c: Coord): Coord {
    var c1 := c.(timerFired := true);
    if c.arrived >= c.workers then c1 else c1.(aborted := true)
  }

  lemma TimeoutAbortsIff(c: Coord)
    ensures TimedOut(c).aborted <==> c.aborted || c.arrived < c.workers
    ensures TimedOut(c) == c.(timerFired := true, aborted := TimedOut(c).aborted)
  {
  }

  // A result for key has come back.
  function Cleared(c: Coord, key: string): Coord {
    c.(pending := c.pending - {key})
  }

  // What every register, timeout and result keeps.
  ghost predicate Consistent(c: Coord) {
    && c.arrived <= c.workers
    && (c.ready <==> c.arrived == c.workers > 0)
    && |c.shards| == (if c.ready then c.workers else 0)
    && (c.aborted ==> c.timerFired)
    && (!c.ready ==> c.pending == map[])
    && (forall k :: k in c.pending ==> KeyOf(c.pending[k]) == k && c.pending[k] in Shard.Flatten(c.shards))
  }

  function ShardKeys(c: Coord): set<string> {
    set t | t in Shard.Flatten(c.shards) :: KeyOf(t)
  }

  // The last registration, and no other, closes ready; it files exactly the drained targets.
  lemma RegisterIsConsistent(c: Coord, drained: seq<Target>, picks: seq<nat>)
    requires Consistent(c)
    ensures var (c', slot) := Registered(c, drained, picks);
            && Consistent(c')
            && (slot.None? <==> c.arrived == c.workers) && (slot.Some? ==> slot.value == c.arrived == c'.arrived - 1)
            && (c'.ready && !c.ready ==>
                  && c'.pending.Keys == ShardKeys(c')
                  && multiset(Shard.Flatten(c'.shards)) == multiset(drained)
                  && Shard.Flatten(c'.shards) == Shard.Shuffled(drained, picks)
                  && forall i, j :: 0 <= i <= j < |c'.shards| ==>
                                      |c'.shards[j]| <= |c'.shards[i]| <= |c'.shards[j]| + 1)
            && (c.ready ==> c' == c)
  {
    var (c', slot) := Registered(c, drained, picks);
    if c'.ready && !c.ready {
      var ts := Shard.Shuffled(drained, picks);
      Shard.CutIsPartition(ts, c.workers);
      Shard.ShufflePermutes(ts, picks);
      Shard.ShardsPartitionTheTargets(drained, picks, c.workers);
      forall k
        ensures k in c'.pending <==> k in ShardKeys(c')
        ensures k in c'.pending ==> KeyOf(c'.pending[k]) == k && c'.pending[k] in Shard.Flatten(c'.shards)
      {
        PendingFilesTargets(ts, k);
      }
      forall i, j | 0 <= i <= j < c.workers
        ensures |c'.shards[j]| <= |c'.shards[i]| <= |c'.shards[j]| + 1
      {
        Shard.CutIsEven(ts, c.workers, i, j);
      }
    }
  }

  // Registering does not look at aborted: the last caller, coming after the timeout, still
  // completes the rendezvous, so that both channels are closed and every drained target is
  // pending in a run that has been aborted.
  lemma LateRegistrationStillFiles(c: Coord, drained: seq<Target>, picks: seq<nat>)
    requires Consistent(c) && c.arrived + 1 == c.workers && !c.timerFired
    ensures var c' := Registered(TimedOut(c), drained, picks).0;
            c'.ready && c'.aborted && forall t :: t in drained ==> KeyOf(t) in c'.pending
  {
    RegisterIsConsistent(TimedOut(c), drained, picks);
    var c' := Registered(TimedOut(c), drained, picks).0;
    forall t | t in drained
      ensures KeyOf(t) in c'.pending
    {
      assert t in multiset(Shard.Flatten(c'.shards));
      assert KeyOf(t) in ShardKeys(c');
    }
  }

  // The records a stream of results carries, the undecodable ones skipped.
  function Decodable(codec: Codec, ws: seq<WireResult>): seq<Record> {
    if ws == [] then []
    else
      var front, last := Decodable(codec, ws[..|ws| - 1]), FromProtoResult(codec, ws[|ws| - 1]);
      if last.Ok? then front + [last.value] else front
  }

  // Exactly the results that decode, each as what it decodes to.
  lemma {:induction false} DecodableIff(codec: Codec, ws: seq<WireResult>, r: Record)
    ensures r in Decodable(codec, ws) <==> exists i :: 0 <= i < |ws| && FromProtoResult(codec, ws[i]) == Ok(r)
  {
    if ws != [] {
      var front, last := ws[..|ws| - 1], |ws| - 1;
      DecodableIff(codec, front, r);
      if i :| 0 <= i < |ws| && FromProtoResult(codec, ws[i]) == Ok(r) {
        assert i < last ==> FromProtoResult(codec, front[i]) == Ok(r);
      }
      if r in Decodable(codec, front) {
        var i :| 0 <= i < |front| && FromProtoResult(codec, front[i]) == Ok(r);
        assert FromProtoResult(codec, ws[i]) == Ok(r);
      }
    }
  }

  lemma {:induction false} DecodableCount(codec: Codec, ws: seq<WireResult>)
    ensures |Decodable(codec, ws)| == Count(ws, (w: WireResult) => FromProtoResult(codec, w).Ok?)
  {
    if ws != [] {
      DecodableCount(codec, ws[..|ws| - 1]);
    }
  }

  function KeysOf(rs: seq<Record>): set<string> {
    if rs == [] then {} else KeysOf(rs[..|rs| - 1]) + {RecordKey(rs[|rs| - 1])}
  }

  // The records whose Send did not give up; gone(i) says that the i-th did.
  function Kept(rs: seq<Record>, gone: nat -> bool): seq<Record> {
    if rs == [] then []
    else
      var front, last := Kept(rs[..|rs| - 1], gone), |rs| - 1;
      if gone(last) then front else front + [rs[last]]
  }

  lemma {:induction false} KeptAll(rs: seq<Record>, gone: nat -> bool)
    requires forall i :: 0 <= i < |rs| ==> !gone(i)
    ensures Kept(rs, gone) == rs
  {
    if rs != [] {
      KeptAll(rs[..|rs| - 1], gone);
    }
  }

  // Every record whose Send did not give up is kept, in its place among those kept.
  lemma {:induction false} KeptInOrder(rs: seq<Record>, gone: nat -> bool, i: nat)
    requires i < |rs| && !gone(i)
    ensures |Kept(rs[..i], gone)| < |Kept(rs, gone)| && Kept(rs, gone)[|Kept(rs[..i], gone)|] == rs[i]
  {
    var front := rs[..|rs| - 1];
    if i < |front| {
      KeptInOrder(front, gone, i);
      assert front[..i] == rs[..i];
    }
  }

  lemma KeptOneMore(rs: seq<Record>, gone: nat -> bool, i: nat)
    requires i < |rs|
    ensures Kept(rs[..i + 1], gone) == Kept(rs[..i], gone) + if gone(i) then [] else [rs[i]]
  {
    assert rs[..i + 1][..i] == rs[..i];
  }

  lemma OneMoreResult(codec: Codec, ws: seq<WireResult>, i: nat)
    requires i < |ws|
    ensures var rec := FromProtoResult(codec, ws[i]);
            Decodable(codec, ws[..i + 1]) == Decodable(codec, ws[..i]) + if rec.Ok? then [rec.value] else []
  {
    assert ws[..i + 1][..i] == ws[..i];
  }

  lemma OneMoreRecord(rs: seq<Record>, r: Record, gone: nat -> bool)
    ensures KeysOf(rs + [r]) == KeysOf(rs) + {RecordKey(r)}
    ensures Kept(rs + [r], gone) == Kept(rs, gone) + if gone(|rs|) then [] else [r]
  {
    assert (rs + [r])[..|rs|] == rs;
  }

  lemma WithoutOneMore(pending: map<string, Target>, keys: set<string>, key: string)
    ensures pending - keys - {key} == pending - (keys + {key})
  {
    assert (pending - keys - {key}).Keys == (pending - (keys + {key})).Keys;
  }

  const LOST := "worker disconnected or the coordinator shut down before a result was reported for this target"

  // The record that stands in for a result that never came.
  function Unresolved(t: Target): Record {
    Record("", t.host, t.port, ProbeResult(ErrUnknown, Text(LOST)))
  }

  lemma UnresolvedIsUnknown(t: Target)
    ensures Unresolved(t).result.outcome == ErrUnknown && Unresolved(t).moduleName == ""
    ensures (Unresolved(t).host, Unresolved(t).port) == (t.host, t.port)
    ensures Unresolved(t).result.value
         == Text("worker disconnected or the coordinator shut down before a result was reported for this target")
  {
  }

  function UnresolvedAll(ts: seq<Target>): (rs: seq<Record>)
    ensures |rs| == |ts|
    ensures forall i :: 0 <= i < |ts| ==> rs[i] == Unresolved(ts[i])
  {
    seq(|ts|, i requires 0 <= i < |ts| => Unresolved(ts[i]))
  }

  // order lists the values of pending, each once: one way Go might range over the map.
  ghost predicate Enumerates(order: seq<Target>, pending: map<string, Target>) {
    && (forall i :: 0 <= i < |order| ==> KeyOf(order[i]) in pending && pending[KeyOf(order[i])] == order[i])
    && (forall i, j :: 0 <= i < j < |order| ==> KeyOf(order[i]) != KeyOf(order[j]))
    && (forall k :: k in pending ==> pending[k] in order)
  }

  lemma FileOneMore(m: map<string, Target>, ts: seq<Target>, i: nat)
    requires i < |ts|
    ensures (m + PendingOf(ts[..i]))[KeyOf(ts[i]) := ts[i]] == m + PendingOf(ts[..i + 1])
  {
    FiledByOneMore(m, ts, (t: Target) => KeyOf(t), i);
  }

  lemma EnumeratesOneMore(order: seq<Target>, m: map<string, Target>, t: Target)
    requires Enumerates(order, m) && KeyOf(t) !in m
    ensures Enumerates(order + [t], m[KeyOf(t) := t])
  {
    var order', m' := order + [t], m[KeyOf(t) := t];
    assert order'[|order|] == t;
    forall k | k in m'
      ensures m'[k] in order'
    {
      assert k in m ==> m[k] in order;
    }
  }

  // Ranging over a map: its values, in an order nobody promises.
  method Range(m: map<string, Target>) returns (order: seq<Target>)
    requires forall k :: k in m ==> KeyOf(m[k]) == k
    ensures Enumerates(order, m)
  {
    var left := m.Keys;
    order := [];
    while left != {}
      invariant left <= m.Keys
      invariant Enumerates(order, m - left)
      decreases |left|
    {
      var k :| k in left;
      assert m - (left - {k}) == (m - left)[k := m[k]];
      EnumeratesOneMore(order, m - left, m[k]);
      left, order := left - {k}, order + [m[k]];
    }
    assert m - {} == m;
  }

  class CoordinatorServer {
    const workers: nat
    const codec: Codec
    const sink: Sink.OutputSink<Record>
    var arrived: nat
    var shards: seq<seq<Target>>
    var ready: bool
    var aborted: bool
    var timerFired: bool
    var pending: map<string, Target>

    ghost function Value(): Coord
      reads this
    {
      Coord(workers, arrived, shards, ready, aborted, timerFired, pending)
    }

    constructor (workers: nat, codec: Codec, sink: Sink.OutputSink<Record>)
      ensures Value() == NewCoord(workers) && this.sink == sink && this.codec == codec
    {
      this.workers, this.codec, this.sink := workers, codec, sink;
      arrived, shards, ready, aborted, timerFired, pending := 0, [], false, false, false, map[];
    }

    // Closing a channel twice would panic: ready must still be open when it is closed.
    method Register(drained: seq<Target>, picks: seq<nat>) returns (idx: Option<nat>)
      requires Consistent(Value())
      modifies this
      ensures (Value(), idx) == Registered(old(Value()), drained, picks)
      ensures Consistent(Value())
    {
      RegisterIsConsistent(Value(), drained, picks);
      if arrived >= workers {
        return None;
      }
      idx := Some(arrived);
      arrived := arrived + 1;
      if arrived == workers {
        shards := ComputeShards(drained, picks);
        assert !ready;
        ready := true;
      }
    }

    method ComputeShards(drained: seq<Target>, picks: seq<nat>) returns (r: seq<seq<Target>>)
      modifies `pending
      ensures r == Shard.Cut(Shard.Shuffled(drained, picks), workers)
      ensures pending == old(pending) + PendingOf(Shard.Shuffled(drained, picks))
    {
      var ts := Shard.Shuffled(drained, picks);
      for i := 0 to |ts|
        invariant pending == old(pending) + PendingOf(ts[..i])
      {
        FileOneMore(old(pending), ts, i);
        pending := pending[KeyOf(ts[i]) := ts[i]];
      }
      assert ts[..|ts|] == ts;
      r := Shard.SplitEven(ts, workers);
    }

    // The timer fires once, and closes aborted at most once.
    method OnRegisterTimeout()
      requires Consistent(Value()) && !timerFired
      modifies this
      ensures Value() == TimedOut(old(Value())) && Consistent(Value())
    {
      timerFired := true;
      if arrived >= workers {
        return;
      }
      assert !aborted;
      aborted := true;
    }

    // One result: its key leaves pending, then its record goes to the sink, unless Send gives up.
    method Resolve(rec: Record, gaveUp: bool)
      requires sink.Valid() && !sink.closed
      modifies `pending, sink`queue, sink`written, sink`accepted
      ensures sink.Valid() && |sink.written| == old(|sink.written|)
      ensures pending == old(pending) - {RecordKey(rec)}
      ensures sink.accepted == old(sink.accepted) + if gaveUp then [] else [rec]
    {
      pending := pending - {RecordKey(rec)};
      var _ := sink.Send(gaveUp, true, rec);
    }

    // One ReportResults stream, run without interference. gone(i) says that the i-th Send gave
    // up. A broken stream has no acknowledgement.
    method ReportResults(stream: seq<WireResult>, broken: bool, gone: nat -> bool) returns (ack: Option<nat>)
      requires sink.Valid() && !sink.closed
      modifies `pending, sink`queue, sink`written, sink`accepted
      ensures sink.Valid()
      ensures ack == if broken then None else Some(|Decodable(codec, stream)|)
      ensures pending == old(pending) - KeysOf(Decodable(codec, stream))
      ensures sink.accepted == old(sink.accepted) + Kept(Decodable(codec, stream), gone)
    {
      var n := 0;
      ghost var rs: seq<Record> := [];
      for i := 0 to |stream|
        invariant sink.Valid() && rs == Decodable(codec, stream[..i]) && n == |rs|
        invariant pending == old(pending) - KeysOf(rs)
        invariant sink.accepted == old(sink.accepted) + Kept(rs, gone)
      {
        OneMoreResult(codec, stream, i);
        var rec := FromProtoResult(codec, stream[i]);
        if rec.Ok? {
          OneMoreRecord(rs, rec.value, gone);
          WithoutOneMore(old(pending), KeysOf(rs), RecordKey(rec.value));
          Resolve(rec.value, gone(n));
          n, rs := n + 1, rs + [rec.value];
        }
      }
      assert stream[..|stream|] == stream;
      ack := if broken then None else Some(n);
    }

    // A synthetic record for every target still pending.
    method ReportUnresolved(gone: nat -> bool) returns (ghost order: seq<Target>)
      requires Consistent(Value()) && sink.Valid() && !sink.closed
      modifies sink`queue, sink`written, sink`accepted
      ensures Enumerates(order, pending)
      ensures sink.Valid() && |sink.written| == old(|sink.written|)
      ensures sink.accepted == old(sink.accepted) + Kept(UnresolvedAll(order), gone)
    {
      var snapshot := Range(pending);
      order := snapshot;
      SendUnresolved(snapshot, gone);
    }

    method SendUnresolved(snapshot: seq<Target>, gone: nat -> bool)
      requires sink.Valid() && !sink.closed
      modifies sink`queue, sink`written, sink`accepted
      ensures sink.Valid() && |sink.written| == old(|sink.written|)
      ensures sink.accepted == old(sink.accepted) + Kept(UnresolvedAll(snapshot), gone)
    {
      ghost var rs := UnresolvedAll(snapshot);
      for i := 0 to |snapshot|
        invariant sink.Valid() && |sink.written| == old(|sink.written|)
        invariant sink.accepted == old(sink.accepted) + Kept(rs[..i], gone)
      {
        KeptOneMore(rs, gone, i);
        var _ := sink.Send(gone(i), true, Unresolved(snapshot[i]));
      }
      assert rs[..|snapshot|] == rs;
    }

    // The end of a coordinator run, no handler being left: report what is unresolved, close the sink.
    method ShutDown(gone: nat -> bool) returns (ghost order: seq<Target>)
      requires Consistent(Value()) && sink.Valid() && !sink.closed
      modifies sink
      ensures Enumerates(order, pending)
      ensures sink.closed && sink.cleaned == |sink.written| == old(|sink.written|)
      ensures forall j :: 0 <= j < |sink.written| ==>
                            sink.written[j] == old(sink.accepted) + Kept(UnresolvedAll(order), gone)
    {
      order := ReportUnresolved(gone);
      sink.Close();
    }
  }
}
