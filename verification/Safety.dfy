/** What every step of the distributed scan keeps. */
module Safety {
  import opened ScanTypes
  import opened PendingKey
  import opened Convert
  import opened Coordinator
  import opened Protocol
  import opened Targets
  import opened Counting
  import Sink

  predicate Is(i: Item, key: string, synthetic: bool) { i.synthetic == synthetic && RecordKey(i.rec) == key }

  ghost predicate Has(items: seq<Item>, key: string, synthetic: bool) {
    exists i :: 0 <= i < |items| && Is(items[i], key, synthetic)
  }

  predicate Holds(st: Stream, key: string) { st.hand.Forwarding? && RecordKey(st.hand.rec) == key }

  predicate Clears(st: Stream, key: string) { st.hand.Clearing? && RecordKey(st.hand.rec) == key }

  // A record for key has left pending and is on its way to the sink.
  ghost predicate InHand(s: System, key: string) { exists k :: 0 <= k < |s.streams| && Holds(s.streams[k], key) }

  ghost predicate AwaitsClear(s: System, key: string) { exists k :: 0 <= k < |s.streams| && Clears(s.streams[k], key) }

  // Slots are handed out in order, once each; a worker has been sent a prefix of its own shard,
  // and has in order what was sent, or a prefix of it if its connection is gone.
  ghost predicate CallOk(s: System, c: nat)
    requires c < |s.calls|
  {
    var call, shard := s.calls[c], ShardOf(s, c);
    && call.slot == c && call.sent <= |shard|
    && (call.stage.Pushing? ==> s.coord.ready)
    && call.got + Decoded(call.inFlight) <= Decoded(Encoded(shard[..call.sent]))
    && (!call.stage.Returned? ==> call.got + Decoded(call.inFlight) == Decoded(Encoded(shard[..call.sent])))
  }

  ghost predicate RendezvousOk(s: System) {
    && Consistent(s.coord)
    && |s.calls| == s.coord.arrived
    && forall c :: 0 <= c < |s.calls| ==> CallOk(s, c)
  }

  // The keys of the results that a handler received, or was yet to act on, once the shards were computed.
  function Heard(s: System): set<string> { s.received + s.early }

  // pending holds exactly the shards' keys that no result has cleared.
  ghost predicate PendingOk(s: System) {
    && (s.coord.ready ==> s.coord.pending.Keys == ShardKeys(s.coord) - s.cleared)
    && (!s.coord.ready ==> s.cleared == {} && Heard(s) == {})
  }

  // A handler has acknowledged one result per decodable one it received, but for the one in hand.
  ghost predicate StreamOk(su: Setup, st: Stream) {
    var recs := Decodable(su.codec, st.seen);
    && |recs| == st.acked + (if st.hand.Empty? then 0 else 1)
    && (!st.hand.Empty? ==> recs[|recs| - 1] == st.hand.rec)
  }

  ghost predicate StreamsOk(su: Setup, s: System) {
    forall k :: 0 <= k < |s.streams| ==> StreamOk(su, s.streams[k])
  }

  ghost predicate Accounted(s: System, key: string) {
    InHand(s, key) || Has(s.sink.accepted, key, false) || Has(s.dropped, key, false)
  }

  ghost predicate ClearedOk(s: System) {
    && (forall key :: key in s.cleared ==> Accounted(s, key))
    && (forall key :: key in Heard(s) ==> key in s.cleared || AwaitsClear(s, key))
  }

  // Nothing is cleared but what was heard, and what was heard is on some stream.
  ghost predicate HeardOk(su: Setup, s: System) {
    && s.cleared <= Heard(s)
    && (s.coord.ready ==> ClearingKeys(s.streams) <= Heard(s))
    && (forall key :: key in Heard(s) ==> Seen(su.codec, s, key))
  }

  function SeenKeys(codec: Codec, st: Stream): set<string> { KeysOf(Decodable(codec, st.seen)) }

  // Some stream has delivered a decodable result for key.
  ghost predicate Seen(codec: Codec, s: System, key: string) {
    exists k :: 0 <= k < |s.streams| && key in SeenKeys(codec, s.streams[k])
  }

  // The list ReportUnresolved works through, and how far it has come.
  function Order(s: System): seq<Target> {
    match s.phase
    case Reporting(order, _) => order
    case Closing(order) => order
    case Closed(order) => order
    case _ => []
  }

  function Reported(s: System): int {
    if s.phase.Reporting? then s.phase.next else |Order(s)|
  }

  function Synthetic(items: seq<Item>): seq<Item> {
    if items == [] then []
    else
      var front, last := Synthetic(items[..|items| - 1]), items[|items| - 1];
      if last.synthetic then front + [last] else front
  }

  function MadeAll(ts: seq<Target>): (r: seq<Item>)
    ensures |r| == |ts|
    ensures forall i :: 0 <= i < |ts| ==> r[i] == Made(ts[i])
  {
    seq(|ts|, i requires 0 <= i < |ts| => Made(ts[i]))
  }

  // ReportUnresolved ranges over pending as it stood when no handler was left.
  ghost predicate SnapshotOk(s: System) {
    && 0 <= Reported(s) <= |Order(s)|
    && (!Live(s) ==> Enumerates(Order(s), s.coord.pending) && AllIdle(s))
  }

  // Each target it has passed was accepted or dropped.
  ghost predicate PassedOk(s: System) {
    forall j :: 0 <= j < Reported(s) && j < |Order(s)| ==> Passed(s, Made(Order(s)[j]))
  }

  ghost predicate Passed(s: System, i: Item) { i in s.sink.accepted || i in s.dropped }

  // The synthetic records due so far.
  function Due(p: Phase): seq<Item> {
    match p
    case Reporting(order, next) => if next <= |order| then MadeAll(order[..next]) else []
    case Closing(order) => MadeAll(order)
    case Closed(order) => MadeAll(order)
    case _ => []
  }

  // No synthetic record comes from anywhere else; and while the context lives nothing is dropped
  // and the synthetic records accepted are exactly those due, in order.
  ghost predicate ExactOk(s: System) {
    && (forall i :: i in Synthetic(s.sink.accepted) ==> i in Due(s.phase))
    && (!s.ctxDone ==> s.dropped == [] && Synthetic(s.sink.accepted) == Due(s.phase))
  }

  ghost predicate ReportOk(s: System) { SnapshotOk(s) && PassedOk(s) && ExactOk(s) }

  ghost predicate SinkOk(su: Setup, s: System) {
    && Sink.Refines(s.sink) && |s.sink.written| == su.outputs
    && (s.sink.closed <==> s.phase.Closing? || s.phase.Closed?)
    && (s.phase.Closed? ==> s.sink.consumer.Exited? && s.sink.cleaned == |s.sink.written|)
  }

  // Serve returns only once the context is done, the listener failed or the rendezvous timed out.
  ghost predicate ExitOk(s: System) {
    !s.phase.Serving? ==> s.ctxDone || s.serveFailed || s.coord.aborted
  }

  // What the handlers have acknowledged, over all streams.
  function TotalAcked(streams: seq<Stream>): nat { Sum(streams, AckedOf()) }

  function AckedOf(): Stream -> nat { (st: Stream) => st.acked }

  function Genuine(items: seq<Item>): nat { Count(items, (i: Item) => !i.synthetic) }

  // Every acknowledged result was accepted or dropped, and nothing else genuine was.
  ghost predicate TotalOk(s: System) {
    Genuine(s.sink.accepted) + Genuine(s.dropped) == TotalAcked(s.streams)
  }

  // The results a stream's handler is through with: the first acked decodable ones, as records.
  function Acknowledged(codec: Codec, st: Stream): seq<Record> {
    var recs := Decodable(codec, st.seen);
    if st.acked <= |recs| then recs[..st.acked] else recs
  }

  function IsRecord(r: Record): Record -> bool { x => x == r }

  function IsGenuine(r: Record): Item -> bool { (i: Item) => !i.synthetic && i.rec == r }

  // How often r is among them, over all streams.
  function TimesAcknowledged(codec: Codec, streams: seq<Stream>, r: Record): nat {
    Sum(streams, TimesOn(codec, r))
  }

  function TimesOn(codec: Codec, r: Record): Stream -> nat {
    (st: Stream) => Count(Acknowledged(codec, st), IsRecord(r))
  }

  // What was accepted or dropped is what was acknowledged: the very records, each as often.
  ghost predicate ForwardedOk(su: Setup, s: System) {
    forall r :: ForwardsExactly(su, s, r)
  }

  ghost predicate ForwardsExactly(su: Setup, s: System, r: Record) {
    Count(s.sink.accepted, IsGenuine(r)) + Count(s.dropped, IsGenuine(r)) == TimesAcknowledged(su.codec, s.streams, r)
  }

  ghost predicate Inv(su: Setup, s: System) {
    && RendezvousOk(s) && PendingOk(s) && StreamsOk(su, s) && ClearedOk(s) && HeardOk(su, s)
    && ReportOk(s) && SinkOk(su, s) && ExitOk(s) && TotalOk(s) && ForwardedOk(su, s) && s.coord.workers == su.workers
  }

  lemma HasMore(items: seq<Item>, i: Item, key: string, synthetic: bool)
    ensures Has(items + [i], key, synthetic) <==> Has(items, key, synthetic) || Is(i, key, synthetic)
  {
    var more := items + [i];
    assert more[|items|] == i;
    forall j | 0 <= j < |items|
      ensures more[j] == items[j]
    {
    }
    if Has(items, key, synthetic) {
      var j :| 0 <= j < |items| && Is(items[j], key, synthetic);
      assert Is(more[j], key, synthetic);
    }
  }

  lemma SyntheticMore(items: seq<Item>, i: Item)
    ensures Synthetic(items + [i]) == Synthetic(items) + if i.synthetic then [i] else []
  {
    assert (items + [i])[..|items|] == items;
  }

  lemma DecodableMore(codec: Codec, ws: seq<WireResult>, w: WireResult)
    ensures Decodable(codec, ws + [w])
         == Decodable(codec, ws) + if FromProtoResult(codec, w).Ok? then [FromProtoResult(codec, w).value] else []
  {
    assert (ws + [w])[..|ws|] == ws && (ws + [w])[..|ws| + 1] == ws + [w];
    OneMoreResult(codec, ws + [w], |ws|);
  }

  // ---- Steps of the GetTargets calls ----

  lemma CallsFrame(s: System, s': System)
    requires RendezvousOk(s) && s'.calls == s.calls
    requires s'.coord.shards == s.coord.shards && s'.coord.ready == s.coord.ready && s'.coord.arrived == s.coord.arrived
    requires Consistent(s'.coord)
    ensures RendezvousOk(s')
  {
    forall c | 0 <= c < |s'.calls|
      ensures CallOk(s', c)
    {
      assert CallOk(s, c);
    }
  }

  lemma OneCallChanges(s: System, c: nat, call: Call)
    requires RendezvousOk(s) && c < |s.calls|
    requires CallOk(s.(calls := s.calls[c := call]), c)
    ensures RendezvousOk(s.(calls := s.calls[c := call]))
  {
    var s' := s.(calls := s.calls[c := call]);
    forall d | 0 <= d < |s'.calls|
      ensures CallOk(s', d)
    {
      assert CallOk(s, d);
    }
  }

  // A call changes its stage, or loses what is on its wire.
  lemma StageKeeps(s: System, c: nat, call: Call)
    requires RendezvousOk(s) && c < |s.calls| && (call.stage.Pushing? ==> s.coord.ready)
    requires call == s.calls[c].(stage := call.stage, inFlight := call.inFlight)
    requires call.stage.Returned? || !s.calls[c].stage.Returned?
    requires call.inFlight == s.calls[c].inFlight || (call.inFlight == [] && call.stage.Returned?)
    ensures RendezvousOk(s.(calls := s.calls[c := call]))
  {
    assert CallOk(s, c);
    assert s.calls[c].got + Decoded([]) == s.calls[c].got;
    OneCallChanges(s, c, call);
  }

  lemma PushKeeps(s: System, c: nat)
    requires RendezvousOk(s) && CanCall(s, Push(c))
    ensures RendezvousOk(s.(calls := s.calls[c := Pushed(s.calls[c], ShardOf(s, c))]))
  {
    assert CallOk(s, c);
    var call, shard := s.calls[c], ShardOf(s, c);
    var w := ToProtoTarget(shard[call.sent]);
    assert Decoded(call.inFlight + [w]) == Decoded(call.inFlight) + [FromProtoTarget(w)];
    assert Decoded(Encoded(shard[..call.sent + 1])) == Decoded(Encoded(shard[..call.sent])) + [FromProtoTarget(w)];
    assert call.got + Decoded(call.inFlight + [w]) == call.got + Decoded(call.inFlight) + [FromProtoTarget(w)];
    OneCallChanges(s, c, Pushed(call, shard));
  }

  lemma HandOver(got: seq<Target>, inFlight: seq<WireTarget>)
    requires inFlight != []
    ensures got + [FromProtoTarget(inFlight[0])] + Decoded(inFlight[1..]) == got + Decoded(inFlight)
  {
  }

  lemma DeliverKeeps(s: System, c: nat)
    requires RendezvousOk(s) && CanCall(s, Deliver(c))
    ensures RendezvousOk(s.(calls := s.calls[c := Delivered(s.calls[c])]))
  {
    assert CallOk(s, c);
    HandOver(s.calls[c].got, s.calls[c].inFlight);
    OneCallChanges(s, c, Delivered(s.calls[c]));
  }

  lemma RegisterKeeps(s: System, drained: seq<Target>, picks: seq<nat>)
    requires RendezvousOk(s) && PendingOk(s) && Live(s)
    ensures RendezvousOk(ActCall(s, Register(drained, picks))) && PendingOk(ActCall(s, Register(drained, picks)))
  {
    var s' := ActCall(s, Register(drained, picks));
    RegisterIsConsistent(s.coord, drained, picks);
    forall c | 0 <= c < |s'.calls|
      ensures CallOk(s', c)
    {
      if c < |s.calls| {
        assert CallOk(s, c);
      }
    }
  }

  lemma CallKeepsRendezvous(s: System, r: CallStep)
    requires RendezvousOk(s) && PendingOk(s) && CanCall(s, r)
    ensures RendezvousOk(ActCall(s, r)) && PendingOk(ActCall(s, r))
  {
    match r
    case Register(drained, picks) => RegisterKeeps(s, drained, picks);
    case Timer => CallsFrame(s, ActCall(s, r));
    case Proceed(c) => StageKeeps(s, c, s.calls[c].(stage := Pushing));
    case Refuse(c) => StageKeeps(s, c, s.calls[c].(stage := Returned));
    case HangUp(c) => StageKeeps(s, c, s.calls[c].(stage := Returned));
    case Push(c) => PushKeeps(s, c);
    case Deliver(c) => DeliverKeeps(s, c);
    case Lose(c) => StageKeeps(s, c, s.calls[c].(inFlight := []));
  }

  // What a step of a call leaves alone.
  lemma CallTouches(s: System, r: CallStep)
    requires CanCall(s, r)
    ensures var s' := ActCall(s, r);
            && s' == s.(coord := s'.coord, calls := s'.calls, early := s'.early)
            && s'.coord.workers == s.coord.workers && (s.coord.aborted ==> s'.coord.aborted)
            && (!Live(s) ==> s'.coord == s.coord)
  {
  }

  // A call leaves what was heard alone, unless it completes the rendezvous.
  lemma CallHears(s: System, r: CallStep)
    requires PendingOk(s) && Consistent(s.coord) && CanCall(s, r)
    ensures var s' := ActCall(s, r);
            && s'.cleared == s.cleared && s'.streams == s.streams
            && if s'.coord.ready == s.coord.ready then Heard(s') == Heard(s)
               else Heard(s) == {} && Heard(s') == ClearingKeys(s.streams)
  {
  }

  lemma CallKeepsHeard(su: Setup, s: System, r: CallStep)
    requires PendingOk(s) && Consistent(s.coord) && StreamsOk(su, s) && ClearedOk(s) && HeardOk(su, s) && CanCall(s, r)
    ensures ClearedOk(ActCall(s, r)) && HeardOk(su, ActCall(s, r))
  {
    var s' := ActCall(s, r);
    CallHears(s, r);
    CallTouches(s, r);
    if s'.coord.ready == s.coord.ready {
      ClearedFrame(s, s');
      HeardFrame(su, s, s');
    } else {
      forall key | key in Heard(s')
        ensures AwaitsClear(s', key) && Seen(su.codec, s', key)
      {
        var k := WhoClears(s.streams, key);
        assert StreamOk(su, s.streams[k]);
        HandIsSeen(su, s.streams[k]);
        assert Clears(s'.streams[k], key) && key in SeenKeys(su.codec, s'.streams[k]);
      }
    }
  }

  lemma WhoClears(streams: seq<Stream>, key: string) returns (k: nat)
    requires key in ClearingKeys(streams)
    ensures k < |streams| && Clears(streams[k], key)
  {
    k :| 0 <= k < |streams| && streams[k].hand.Clearing? && RecordKey(streams[k].hand.rec) == key;
  }

  lemma HandIsSeen(su: Setup, st: Stream)
    requires StreamOk(su, st) && !st.hand.Empty?
    ensures RecordKey(st.hand.rec) in SeenKeys(su.codec, st)
  {
  }

  lemma CallKeepsInv(su: Setup, s: System, r: CallStep)
    requires Inv(su, s) && CanCall(s, r)
    ensures Inv(su, ActCall(s, r))
  {
    CallKeepsRendezvous(s, r);
    CallKeepsHeard(su, s, r);
    CallKeepsRest(su, s, r);
    CallTouches(s, r);
    ForwardedFrame(su, s, ActCall(s, r));
  }

  lemma CallKeepsRest(su: Setup, s: System, r: CallStep)
    requires StreamsOk(su, s) && ReportOk(s) && SinkOk(su, s) && ExitOk(s) && TotalOk(s)
    requires s.coord.workers == su.workers && CanCall(s, r)
    ensures var s' := ActCall(s, r);
            && StreamsOk(su, s') && ReportOk(s') && SinkOk(su, s') && ExitOk(s') && TotalOk(s')
            && s'.coord.workers == su.workers
  {
    CallTouches(s, r);
    PassedFrame(s, ActCall(s, r));
  }

  // ---- Steps of the ReportResults streams ----

  // What a step of a stream leaves alone, and that it acts only on its own hand.
  lemma StreamTouches(codec: Codec, s: System, x: StreamStep)
    requires CanStream(s, x)
    ensures var s' := ActStream(codec, s, x);
            && s' == s.(coord := s'.coord, streams := s'.streams, sink := s'.sink,
                        received := s'.received, cleared := s'.cleared, dropped := s'.dropped)
            && s'.coord == s.coord.(pending := s'.coord.pending)
            && (!Live(s) ==> s'.coord == s.coord && s'.sink == s.sink && s'.dropped == s.dropped)
            && (s'.dropped != s.dropped ==> s.ctxDone)
            && |s'.streams| >= |s.streams|
  {
  }

  // What a stream holds, after a step: the same, one result more, or one moved from inbox to seen.
  lemma StreamMoves(codec: Codec, s: System, x: StreamStep, k: nat)
    requires CanStream(s, x) && k < |s.streams|
    ensures var st, st' := s.streams[k], ActStream(codec, s, x).streams[k];
            || (st'.inbox == st.inbox && st'.seen == st.seen)
            || (x.Report? && x.k == k && st'.inbox == st.inbox + [x.w] && st'.seen == st.seen)
            || (x == Receive(k) && st.inbox != [] && st'.inbox == st.inbox[1..] && st'.seen == st.seen + [st.inbox[0]])
  {
  }

  lemma StreamKeepsPending(codec: Codec, s: System, x: StreamStep)
    requires RendezvousOk(s) && PendingOk(s) && CanStream(s, x)
    ensures RendezvousOk(ActStream(codec, s, x)) && PendingOk(ActStream(codec, s, x))
  {
    CallsFrame(s, ActStream(codec, s, x));
  }

  lemma ReceiveKeepsOk(su: Setup, s: System, k: nat)
    requires CanStream(s, Receive(k)) && StreamOk(su, s.streams[k])
    ensures StreamOk(su, ActStream(su.codec, s, Receive(k)).streams[k])
  {
    DecodableMore(su.codec, s.streams[k].seen, s.streams[k].inbox[0]);
  }

  lemma OwnStepKeepsOk(su: Setup, s: System, x: StreamStep)
    requires CanStream(s, x) && !x.OpenStream? && !x.Receive? && StreamOk(su, s.streams[x.k])
    ensures StreamOk(su, ActStream(su.codec, s, x).streams[x.k])
  {
  }

  lemma StreamKeepsOne(su: Setup, s: System, x: StreamStep, k: nat)
    requires CanStream(s, x) && k < |s.streams| && StreamOk(su, s.streams[k])
    ensures k < |ActStream(su.codec, s, x).streams| && StreamOk(su, ActStream(su.codec, s, x).streams[k])
  {
    if x == Receive(k) {
      ReceiveKeepsOk(su, s, k);
    } else if !x.OpenStream? && x.k == k {
      OwnStepKeepsOk(su, s, x);
    } else {
      assert ActStream(su.codec, s, x).streams[k] == s.streams[k];
    }
  }

  lemma StreamKeepsStreams(su: Setup, s: System, x: StreamStep)
    requires StreamsOk(su, s) && CanStream(s, x)
    ensures StreamsOk(su, ActStream(su.codec, s, x))
  {
    var s' := ActStream(su.codec, s, x);
    assert |s'.streams| == |s.streams| || s'.streams == s.streams + [Stream([], Empty, true, 0, [])];
    forall k | 0 <= k < |s'.streams|
      ensures StreamOk(su, s'.streams[k])
    {
      if k < |s.streams| {
        StreamKeepsOne(su, s, x, k);
      }
    }
  }

  // A handler's hand changes only when the handler itself acts.
  lemma HandStays(codec: Codec, s: System, x: StreamStep, k: nat)
    requires CanStream(s, x) && k < |s.streams| && x !in {Receive(k), Clear(k), Forward(k), GiveUp(k)}
    ensures k < |ActStream(codec, s, x).streams| && ActStream(codec, s, x).streams[k].hand == s.streams[k].hand
  {
  }

  lemma StreamKeepsAccounted(codec: Codec, s: System, x: StreamStep, key: string)
    requires ClearedOk(s) && CanStream(s, x) && key in ActStream(codec, s, x).cleared
    ensures Accounted(ActStream(codec, s, x), key)
  {
    var s' := ActStream(codec, s, x);
    if x.Clear? && key == RecordKey(s.streams[x.k].hand.rec) {
      assert Holds(s'.streams[x.k], key);
    } else {
      assert key in s.cleared;
      StreamHistoryGrows(codec, s, x, key);
      if InHand(s, key) {
        var k :| 0 <= k < |s.streams| && Holds(s.streams[k], key);
        if x == Forward(k) || x == GiveUp(k) {
          assert Is(Item(s.streams[k].hand.rec, false), key, false);
        } else {
          HandStays(codec, s, x, k);
          assert Holds(s'.streams[k], key);
        }
      }
    }
  }

  // What was accepted or dropped stays so, and what a handler was forwarding joins it.
  lemma StreamHistoryGrows(codec: Codec, s: System, x: StreamStep, key: string)
    requires CanStream(s, x)
    ensures var s' := ActStream(codec, s, x);
            && (Has(s'.sink.accepted, key, false) <==>
                  || Has(s.sink.accepted, key, false)
                  || (x.Forward? && Is(Item(s.streams[x.k].hand.rec, false), key, false)))
            && (Has(s'.dropped, key, false) <==>
                  Has(s.dropped, key, false) || (x.GiveUp? && Is(Item(s.streams[x.k].hand.rec, false), key, false)))
  {
    if x.Forward? {
      HasMore(s.sink.accepted, Item(s.streams[x.k].hand.rec, false), key, false);
    } else if x.GiveUp? {
      HasMore(s.dropped, Item(s.streams[x.k].hand.rec, false), key, false);
    }
  }

  lemma StreamKeepsAwaiting(codec: Codec, s: System, x: StreamStep, key: string)
    requires PendingOk(s) && ClearedOk(s) && CanStream(s, x) && key in Heard(ActStream(codec, s, x))
    ensures key in ActStream(codec, s, x).cleared || AwaitsClear(ActStream(codec, s, x), key)
  {
    var s' := ActStream(codec, s, x);
    if key !in Heard(s) {
      assert Clears(s'.streams[x.k], key);
    } else if key !in s.cleared {
      var k :| 0 <= k < |s.streams| && Clears(s.streams[k], key);
      if x != Clear(k) {
        HandStays(codec, s, x, k);
        assert Clears(s'.streams[k], key);
      }
    }
  }

  lemma StreamKeepsCleared(codec: Codec, s: System, x: StreamStep)
    requires PendingOk(s) && ClearedOk(s) && CanStream(s, x)
    ensures ClearedOk(ActStream(codec, s, x))
  {
    var s' := ActStream(codec, s, x);
    forall key | key in s'.cleared
      ensures Accounted(s', key)
    {
      StreamKeepsAccounted(codec, s, x, key);
    }
    forall key | key in Heard(s')
      ensures key in s'.cleared || AwaitsClear(s', key)
    {
      StreamKeepsAwaiting(codec, s, x, key);
    }
  }

  // A handler hears a result when it takes it off its stream.
  lemma StreamHears(su: Setup, s: System, x: StreamStep)
    requires CanStream(s, x)
    ensures var s' := ActStream(su.codec, s, x);
            var hears := s.coord.ready && x.Receive? && s'.streams[x.k].hand.Clearing?;
            && s'.coord.ready == s.coord.ready
            && Heard(s') == Heard(s) + if hears then {RecordKey(s'.streams[x.k].hand.rec)} else {}
  {
  }

  lemma StreamClears(codec: Codec, s: System, x: StreamStep)
    requires CanStream(s, x)
    ensures var clears := s.coord.ready && x.Clear?;
            ActStream(codec, s, x).cleared == s.cleared + if clears then {RecordKey(s.streams[x.k].hand.rec)} else {}
  {
  }

  lemma SeenMore(codec: Codec, st: Stream, w: WireResult, st': Stream)
    requires st'.seen == st.seen + [w]
    ensures var rec := FromProtoResult(codec, w);
            SeenKeys(codec, st') == SeenKeys(codec, st) + if rec.Ok? then {RecordKey(rec.value)} else {}
  {
    DecodableMore(codec, st.seen, w);
    if FromProtoResult(codec, w).Ok? {
      OneMoreRecord(Decodable(codec, st.seen), FromProtoResult(codec, w).value, _ => false);
    }
  }

  // What a stream has delivered stays delivered.
  lemma SeenStays(codec: Codec, s: System, x: StreamStep, k: nat)
    requires CanStream(s, x) && k < |s.streams|
    ensures k < |ActStream(codec, s, x).streams|
    ensures SeenKeys(codec, s.streams[k]) <= SeenKeys(codec, ActStream(codec, s, x).streams[k])
  {
    if x == Receive(k) {
      SeenMore(codec, s.streams[k], s.streams[k].inbox[0], ActStream(codec, s, x).streams[k]);
    }
  }

  lemma StreamKeepsSeen(su: Setup, s: System, x: StreamStep, key: string)
    requires HeardOk(su, s) && CanStream(s, x) && StreamsOk(su, ActStream(su.codec, s, x))
    requires key in Heard(ActStream(su.codec, s, x))
    ensures Seen(su.codec, ActStream(su.codec, s, x), key)
  {
    var s' := ActStream(su.codec, s, x);
    StreamHears(su, s, x);
    if key in Heard(s) {
      var k :| 0 <= k < |s.streams| && key in SeenKeys(su.codec, s.streams[k]);
      SeenStays(su.codec, s, x, k);
    } else {
      assert StreamOk(su, s'.streams[x.k]);
      HandIsSeen(su, s'.streams[x.k]);
    }
  }

  lemma StreamKeepsHeard(su: Setup, s: System, x: StreamStep)
    requires HeardOk(su, s) && CanStream(s, x) && StreamsOk(su, ActStream(su.codec, s, x))
    ensures HeardOk(su, ActStream(su.codec, s, x))
  {
    var s' := ActStream(su.codec, s, x);
    forall key | key in Heard(s')
      ensures Seen(su.codec, s', key)
    {
      StreamKeepsSeen(su, s, x, key);
    }
    StreamHears(su, s, x);
    StreamClears(su.codec, s, x);
    if s.coord.ready {
      ClearedIsHeard(su, s, x);
      forall key | key in ClearingKeys(s'.streams)
        ensures key in Heard(s')
      {
        var k := WhoClears(s'.streams, key);
        ClearingIsHeard(su, s, x, k);
      }
    }
  }

  lemma ClearedIsHeard(su: Setup, s: System, x: StreamStep)
    requires HeardOk(su, s) && CanStream(s, x) && s.coord.ready
    ensures ActStream(su.codec, s, x).cleared <= Heard(ActStream(su.codec, s, x))
  {
    StreamHears(su, s, x);
    StreamClears(su.codec, s, x);
    if x.Clear? {
      assert RecordKey(s.streams[x.k].hand.rec) in ClearingKeys(s.streams);
    }
  }

  lemma ClearingIsHeard(su: Setup, s: System, x: StreamStep, k: nat)
    requires HeardOk(su, s) && CanStream(s, x) && s.coord.ready
    requires k < |ActStream(su.codec, s, x).streams| && ActStream(su.codec, s, x).streams[k].hand.Clearing?
    ensures RecordKey(ActStream(su.codec, s, x).streams[k].hand.rec) in Heard(ActStream(su.codec, s, x))
  {
    StreamHears(su, s, x);
    if x != Receive(k) {
      assert k < |s.streams| && s.streams[k].hand == ActStream(su.codec, s, x).streams[k].hand;
      assert RecordKey(s.streams[k].hand.rec) in ClearingKeys(s.streams);
    }
  }

  lemma StreamKeepsReport(codec: Codec, s: System, x: StreamStep)
    requires ReportOk(s) && CanStream(s, x)
    ensures ReportOk(ActStream(codec, s, x))
  {
    var s' := ActStream(codec, s, x);
    StreamTouches(codec, s, x);
    if Live(s) {
      if x.Forward? {
        SyntheticMore(s.sink.accepted, Item(s.streams[x.k].hand.rec, false));
      }
    } else {
      forall k | 0 <= k < |s'.streams|
        ensures s'.streams[k].hand.Empty?
      {
        HandStays(codec, s, x, k);
      }
      PassedFrame(s, s');
    }
  }

  // A handler acknowledges a result when it is through with it.
  lemma AckedAfter(codec: Codec, s: System, x: StreamStep)
    requires CanStream(s, x)
    ensures TotalAcked(ActStream(codec, s, x).streams)
         == TotalAcked(s.streams) + if x.Forward? || x.GiveUp? then 1 else 0
  {
    var s' := ActStream(codec, s, x);
    if x.OpenStream? {
      SumPush(s.streams, Stream([], Empty, true, 0, []), AckedOf());
    } else {
      SumUpdate(s.streams, x.k, s'.streams[x.k], AckedOf());
    }
  }

  lemma StreamKeepsTotal(codec: Codec, s: System, x: StreamStep)
    requires TotalOk(s) && CanStream(s, x)
    ensures TotalOk(ActStream(codec, s, x))
  {
    AckedAfter(codec, s, x);
    if x.Forward? {
      CountPush(s.sink.accepted, Item(s.streams[x.k].hand.rec, false), (i: Item) => !i.synthetic);
    } else if x.GiveUp? {
      CountPush(s.dropped, Item(s.streams[x.k].hand.rec, false), (i: Item) => !i.synthetic);
    }
  }

  // ---- The records themselves ----

  // A handler that is through with its record has acknowledged that record; nothing else it does
  // changes what it acknowledged.
  lemma AcknowledgedMore(su: Setup, s: System, x: StreamStep, k: nat)
    requires CanStream(s, x) && k < |s.streams| && StreamOk(su, s.streams[k])
    ensures Acknowledged(su.codec, ActStream(su.codec, s, x).streams[k])
         == Acknowledged(su.codec, s.streams[k]) + if !x.OpenStream? && x.k == k then ThroughWith(s, x) else []
  {
    if x == Receive(k) {
      ReceivingIsNotAcknowledging(su.codec, s.streams[k], s.streams[k].inbox[0], ActStream(su.codec, s, x).streams[k]);
    }
  }

  lemma ReceivingIsNotAcknowledging(codec: Codec, st: Stream, w: WireResult, st': Stream)
    requires |Decodable(codec, st.seen)| == st.acked == st'.acked && st'.seen == st.seen + [w]
    ensures Acknowledged(codec, st') == Acknowledged(codec, st)
  {
    DecodableMore(codec, st.seen, w);
  }

  lemma AcknowledgesOne(codec: Codec, streams: seq<Stream>, streams': seq<Stream>, k: nat, more: seq<Record>, r: Record)
    requires k < |streams| == |streams'| && streams' == streams[k := streams'[k]] && |more| <= 1
    requires Acknowledged(codec, streams'[k]) == Acknowledged(codec, streams[k]) + more
    ensures TimesAcknowledged(codec, streams', r)
         == TimesAcknowledged(codec, streams, r) + if more == [r] then 1 else 0
  {
    SumUpdate(streams, k, streams'[k], TimesOn(codec, r));
    if more != [] {
      CountPush(Acknowledged(codec, streams[k]), more[0], IsRecord(r));
      assert more == [more[0]];
    } else {
      assert Acknowledged(codec, streams[k]) + [] == Acknowledged(codec, streams[k]);
    }
  }

  // The record a handler is through with by this step, if any.
  function ThroughWith(s: System, x: StreamStep): seq<Record>
    requires CanStream(s, x)
  {
    if x.Forward? || x.GiveUp? then [s.streams[x.k].hand.rec] else []
  }

  lemma HandlerAcknowledges(su: Setup, s: System, x: StreamStep, r: Record)
    requires CanStream(s, x) && !x.OpenStream? && StreamOk(su, s.streams[x.k])
    ensures TimesAcknowledged(su.codec, ActStream(su.codec, s, x).streams, r)
         == TimesAcknowledged(su.codec, s.streams, r) + if ThroughWith(s, x) == [r] then 1 else 0
  {
    var streams', more := ActStream(su.codec, s, x).streams, ThroughWith(s, x);
    OnlyOneStream(su.codec, s, x);
    assert Acknowledged(su.codec, streams'[x.k]) == Acknowledged(su.codec, s.streams[x.k]) + more by {
      AcknowledgedMore(su, s, x, x.k);
    }
    AcknowledgesOne(su.codec, s.streams, streams', x.k, more, r);
  }

  lemma StreamAcknowledges(su: Setup, s: System, x: StreamStep, r: Record)
    requires StreamsOk(su, s) && CanStream(s, x)
    ensures TimesAcknowledged(su.codec, ActStream(su.codec, s, x).streams, r)
         == TimesAcknowledged(su.codec, s.streams, r) + if ThroughWith(s, x) == [r] then 1 else 0
  {
    if x.OpenStream? {
      SumPush(s.streams, Stream([], Empty, true, 0, []), TimesOn(su.codec, r));
    } else {
      HandlerAcknowledges(su, s, x, r);
    }
  }

  lemma OnlyOneStream(codec: Codec, s: System, x: StreamStep)
    requires CanStream(s, x) && !x.OpenStream?
    ensures var streams := ActStream(codec, s, x).streams;
            |streams| == |s.streams| && streams == s.streams[x.k := streams[x.k]]
  {
  }

  lemma StreamForwards(su: Setup, s: System, x: StreamStep, r: Record)
    requires StreamsOk(su, s) && CanStream(s, x) && ForwardsExactly(su, s, r)
    ensures ForwardsExactly(su, ActStream(su.codec, s, x), r)
  {
    StreamAcknowledges(su, s, x, r);
    if x.Forward? {
      CountPush(s.sink.accepted, Item(s.streams[x.k].hand.rec, false), IsGenuine(r));
    } else if x.GiveUp? {
      CountPush(s.dropped, Item(s.streams[x.k].hand.rec, false), IsGenuine(r));
    }
  }

  lemma StreamKeepsForwarded(su: Setup, s: System, x: StreamStep)
    requires StreamsOk(su, s) && CanStream(s, x) && ForwardedOk(su, s)
    ensures ForwardedOk(su, ActStream(su.codec, s, x))
  {
    forall r
      ensures ForwardsExactly(su, ActStream(su.codec, s, x), r)
    {
      StreamForwards(su, s, x, r);
    }
  }

  lemma RunKeepsForwarded(su: Setup, s: System, u: RunStep)
    requires CanRun(s, u) && ForwardedOk(su, s)
    ensures ForwardedOk(su, ActRun(s, u))
  {
    forall r
      ensures ForwardsExactly(su, ActRun(s, u), r)
    {
      assert ForwardsExactly(su, s, r);
      if u.ReportNext? {
        CountPush(s.sink.accepted, Made(s.phase.order[s.phase.next]), IsGenuine(r));
      } else if u.ReportGiveUp? {
        CountPush(s.dropped, Made(s.phase.order[s.phase.next]), IsGenuine(r));
      }
    }
  }

  lemma ForwardedFrame(su: Setup, s: System, s': System)
    requires ForwardedOk(su, s) && s'.streams == s.streams
    requires s'.sink.accepted == s.sink.accepted && s'.dropped == s.dropped
    ensures ForwardedOk(su, s')
  {
    forall r
      ensures ForwardsExactly(su, s', r)
    {
      assert ForwardsExactly(su, s, r);
    }
  }

  // Some stream has delivered a result that decodes to exactly this record.
  ghost predicate WasDelivered(codec: Codec, s: System, rec: Record) {
    exists k :: 0 <= k < |s.streams| && DeliveredOn(codec, s.streams[k], rec)
  }

  ghost predicate DeliveredOn(codec: Codec, st: Stream, rec: Record) {
    exists i :: 0 <= i < |st.seen| && FromProtoResult(codec, st.seen[i]) == Ok(rec)
  }

  lemma AcknowledgedIsDelivered(codec: Codec, streams: seq<Stream>, r: Record)
    requires TimesAcknowledged(codec, streams, r) > 0
    ensures exists k :: 0 <= k < |streams| && DeliveredOn(codec, streams[k], r)
  {
    SumSome(streams, TimesOn(codec, r));
    var k :| 0 <= k < |streams| && TimesOn(codec, r)(streams[k]) > 0;
    CountSome(Acknowledged(codec, streams[k]), IsRecord(r));
    assert r in Decodable(codec, streams[k].seen);
    DecodableIff(codec, streams[k].seen, r);
    assert DeliveredOn(codec, streams[k], r);
  }

  // A genuine record, result and all, is one that a stream delivered.
  lemma GenuineIsDelivered(su: Setup, s: System, i: Item)
    requires ForwardedOk(su, s) && !i.synthetic && (i in s.sink.accepted || i in s.dropped)
    ensures WasDelivered(su.codec, s, i.rec)
  {
    CountSome(s.sink.accepted, IsGenuine(i.rec));
    CountSome(s.dropped, IsGenuine(i.rec));
    assert ForwardsExactly(su, s, i.rec);
    AcknowledgedIsDelivered(su.codec, s.streams, i.rec);
  }

  lemma StreamKeepsSink(su: Setup, s: System, x: StreamStep)
    requires SinkOk(su, s) && CanStream(s, x)
    ensures SinkOk(su, ActStream(su.codec, s, x))
  {
    if x.Forward? {
      Sink.StepRefines(s.sink, Sink.Enqueue(Item(s.streams[x.k].hand.rec, false)));
    }
  }

  lemma StreamKeepsInv(su: Setup, s: System, x: StreamStep)
    requires Inv(su, s) && CanStream(s, x)
    ensures Inv(su, ActStream(su.codec, s, x))
  {
    StreamKeepsPending(su.codec, s, x);
    StreamKeepsStreams(su, s, x);
    StreamKeepsCleared(su.codec, s, x);
    StreamKeepsHeard(su, s, x);
    StreamKeepsReport(su.codec, s, x);
    StreamKeepsTotal(su.codec, s, x);
    StreamKeepsForwarded(su, s, x);
    StreamKeepsSink(su, s, x);
    StreamTouches(su.codec, s, x);
  }

  // ---- Steps of the run itself, and of the sink ----

  // Neither the calls nor the streams nor pending, but perhaps history grows.
  ghost predicate Beside(s: System, s': System) {
    && s' == s.(sink := s'.sink, phase := s'.phase, ctxDone := s'.ctxDone,
                serveFailed := s'.serveFailed, dropped := s'.dropped)
    && s.sink.accepted <= s'.sink.accepted && s.dropped <= s'.dropped
  }

  lemma BesideKeeps(su: Setup, s: System, s': System)
    requires RendezvousOk(s) && PendingOk(s) && StreamsOk(su, s) && ClearedOk(s) && HeardOk(su, s) && Beside(s, s')
    ensures RendezvousOk(s') && PendingOk(s') && StreamsOk(su, s') && ClearedOk(s') && HeardOk(su, s')
  {
    CallsFrame(s, s');
    ClearedFrame(s, s');
    HeardFrame(su, s, s');
  }

  lemma HeardFrame(su: Setup, s: System, s': System)
    requires HeardOk(su, s) && s'.streams == s.streams && s'.cleared == s.cleared && Heard(s') == Heard(s)
    requires s'.coord.ready == s.coord.ready
    ensures HeardOk(su, s')
  {
    forall key | key in Heard(s')
      ensures Seen(su.codec, s', key)
    {
      var k :| 0 <= k < |s.streams| && key in SeenKeys(su.codec, s.streams[k]);
      assert key in SeenKeys(su.codec, s'.streams[k]);
    }
  }

  lemma ClearedFrame(s: System, s': System)
    requires ClearedOk(s) && s'.streams == s.streams && s'.cleared == s.cleared && Heard(s') == Heard(s)
    requires s.sink.accepted <= s'.sink.accepted && s.dropped <= s'.dropped
    ensures ClearedOk(s')
  {
    forall key | key in s'.cleared
      ensures Accounted(s', key)
    {
      if InHand(s, key) {
        var k :| 0 <= k < |s.streams| && Holds(s.streams[k], key);
        assert Holds(s'.streams[k], key);
      } else {
        HasStays(s.sink.accepted, s'.sink.accepted, key, false);
        HasStays(s.dropped, s'.dropped, key, false);
      }
    }
    forall key | key in Heard(s')
      ensures key in s'.cleared || AwaitsClear(s', key)
    {
      if key !in s.cleared {
        var k :| 0 <= k < |s.streams| && Clears(s.streams[k], key);
        assert Clears(s'.streams[k], key);
      }
    }
  }

  lemma HasStays(items: seq<Item>, more: seq<Item>, key: string, synthetic: bool)
    requires items <= more
    ensures Has(items, key, synthetic) ==> Has(more, key, synthetic)
  {
    if Has(items, key, synthetic) {
      var i :| 0 <= i < |items| && Is(items[i], key, synthetic);
      assert Is(more[i], key, synthetic);
    }
  }

  lemma PassedFrame(s: System, s': System)
    requires PassedOk(s) && Order(s') == Order(s) && Reported(s') == Reported(s)
    requires s.sink.accepted <= s'.sink.accepted && s.dropped <= s'.dropped
    ensures PassedOk(s')
  {
    forall j | 0 <= j < Reported(s') && j < |Order(s')|
      ensures Passed(s', Made(Order(s')[j]))
    {
      assert Passed(s, Made(Order(s)[j]));
    }
  }

  lemma RunIsBeside(s: System, u: RunStep)
    requires CanRun(s, u)
    ensures Beside(s, ActRun(s, u))
  {
  }

  lemma ReportingKeepsPassed(s: System, s': System, order: seq<Target>, n: nat)
    requires PassedOk(s) && s.phase == Reporting(order, n) && n < |order| && s'.phase == Reporting(order, n + 1)
    requires Passed(s', Made(order[n])) && s.sink.accepted <= s'.sink.accepted && s.dropped <= s'.dropped
    ensures PassedOk(s')
  {
    forall j | 0 <= j < n + 1
      ensures Passed(s', Made(order[j]))
    {
      if j < n {
        assert Order(s)[j] == order[j] && Passed(s, Made(order[j]));
      }
    }
  }

  lemma RunKeepsPassed(s: System, u: RunStep)
    requires PassedOk(s) && CanRun(s, u)
    ensures PassedOk(ActRun(s, u))
  {
    var s' := ActRun(s, u);
    if u.ReportNext? || u.ReportGiveUp? {
      var i := Made(s.phase.order[s.phase.next]);
      assert i in [i];
      ReportingKeepsPassed(s, s', s.phase.order, s.phase.next);
    } else if !u.BeginReport? {
      PassedFrame(s, s');
    }
  }

  lemma RunKeepsSnapshot(s: System, u: RunStep)
    requires SnapshotOk(s) && CanRun(s, u)
    ensures SnapshotOk(ActRun(s, u))
  {
  }

  lemma MadeMore(accepted: seq<Item>, order: seq<Target>, n: nat)
    requires n < |order|
    ensures Synthetic(accepted + [Made(order[n])]) == Synthetic(accepted) + [Made(order[n])]
    ensures MadeAll(order[..n + 1]) == MadeAll(order[..n]) + [Made(order[n])]
  {
    SyntheticMore(accepted, Made(order[n]));
  }

  lemma RunKeepsExact(s: System, u: RunStep)
    requires ExactOk(s) && CanRun(s, u)
    ensures ExactOk(ActRun(s, u))
  {
    match u
    case ReportNext =>
      MadeMore(s.sink.accepted, s.phase.order, s.phase.next);
      ExactFrame(s, ActRun(s, u), [Made(s.phase.order[s.phase.next])]);
    case ReportGiveUp =>
      MadeMore(s.sink.accepted, s.phase.order, s.phase.next);
      assert Due(ActRun(s, u).phase) == Due(s.phase) + [Made(s.phase.order[s.phase.next])];
    case BeginReport(order) =>
      assert order[..0] == [];
      ExactFrame(s, ActRun(s, u), []);
    case CloseSink =>
      assert s.phase.order[..s.phase.next] == s.phase.order;
      ExactFrame(s, ActRun(s, u), []);
    case _ => ExactFrame(s, ActRun(s, u), []);
  }

  lemma ExactFrame(s: System, s': System, made: seq<Item>)
    requires ExactOk(s) && s'.dropped == s.dropped && (s.ctxDone ==> s'.ctxDone)
    requires Synthetic(s'.sink.accepted) == Synthetic(s.sink.accepted) + made && Due(s'.phase) == Due(s.phase) + made
    ensures ExactOk(s')
  {
  }

  lemma RunKeepsSink(su: Setup, s: System, u: RunStep)
    requires SinkOk(su, s) && CanRun(s, u)
    ensures SinkOk(su, ActRun(s, u))
  {
    if u.ReportNext? {
      Sink.StepRefines(s.sink, Sink.Enqueue(Made(s.phase.order[s.phase.next])));
    } else if u.CloseSink? {
      Sink.StepRefines(s.sink, Sink.Shut);
    }
  }

  lemma RunKeepsTotal(s: System, u: RunStep)
    requires TotalOk(s) && ExitOk(s) && CanRun(s, u)
    ensures TotalOk(ActRun(s, u)) && ExitOk(ActRun(s, u))
  {
    if u.ReportNext? {
      CountPush(s.sink.accepted, Made(s.phase.order[s.phase.next]), (i: Item) => !i.synthetic);
    } else if u.ReportGiveUp? {
      CountPush(s.dropped, Made(s.phase.order[s.phase.next]), (i: Item) => !i.synthetic);
    }
  }

  lemma RunKeepsInv(su: Setup, s: System, u: RunStep)
    requires Inv(su, s) && CanRun(s, u)
    ensures Inv(su, ActRun(s, u))
  {
    RunIsBeside(s, u);
    BesideKeeps(su, s, ActRun(s, u));
    RunKeepsSnapshot(s, u);
    RunKeepsPassed(s, u);
    RunKeepsExact(s, u);
    RunKeepsSink(su, s, u);
    RunKeepsTotal(s, u);
    RunKeepsForwarded(su, s, u);
  }

  lemma SinkKeepsReport(su: Setup, s: System, s': System)
    requires ReportOk(s) && ExitOk(s) && TotalOk(s) && SinkOk(su, s)
    requires s' == s.(sink := s'.sink) && s'.sink.accepted == s.sink.accepted
    ensures ReportOk(s') && ExitOk(s') && TotalOk(s')
  {
    PassedFrame(s, s');
  }

  lemma SinkKeepsInv(su: Setup, s: System, b: Sink.SinkStep<Item>)
    requires Inv(su, s) && Can(s, SinkMoves(b))
    ensures Inv(su, Act(su, s, SinkMoves(b)))
  {
    var s' := s.(sink := Sink.Step(s.sink, b));
    SinkStepKeepsSink(su, s, b);
    BesideKeeps(su, s, s');
    SinkKeepsReport(su, s, s');
    ForwardedFrame(su, s, s');
  }

  lemma SinkStepKeepsSink(su: Setup, s: System, b: Sink.SinkStep<Item>)
    requires SinkOk(su, s) && Can(s, SinkMoves(b))
    ensures var s' := s.(sink := Sink.Step(s.sink, b));
            SinkOk(su, s') && s'.sink.accepted == s.sink.accepted
  {
    Sink.StepRefines(s.sink, b);
  }

  lemma KeepsInv(su: Setup, s: System, a: Action)
    requires Inv(su, s) && Can(s, a)
    ensures Inv(su, Act(su, s, a))
  {
    match a
    case OnCall(r) => CallKeepsInv(su, s, r);
    case OnStream(x) => StreamKeepsInv(su, s, x);
    case OnRun(u) => RunKeepsInv(su, s, u);
    case SinkMoves(b) => SinkKeepsInv(su, s, b);
  }

  lemma StartsWithInv(su: Setup)
    ensures Inv(su, Start(su))
  {
    assert forall r :: ForwardsExactly(su, Start(su), r);
    Sink.NewSinkRefines<Item>(su.outputs, su.queueMax);
  }

  lemma {:induction false} ReachesInv(su: Setup, s: System, acts: seq<Action>, s': System)
    requires Inv(su, s) && Reaches(su, s, acts, s')
    ensures Inv(su, s')
    decreases |acts|
  {
    if acts != [] {
      KeepsInv(su, s, acts[0]);
      ReachesInv(su, Act(su, s, acts[0]), acts[1..], s');
    }
  }

  // Every reachable state of every run satisfies the invariant.
  lemma RunsKeepInv(su: Setup, acts: seq<Action>, s: System)
    requires Reaches(su, Start(su), acts, s)
    ensures Inv(su, s)
  {
    StartsWithInv(su);
    ReachesInv(su, Start(su), acts, s);
  }
}
