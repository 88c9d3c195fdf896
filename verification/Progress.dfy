/** What a live run can always get done: shards reach their workers, handlers work off their
    streams, and a whole scan can succeed. */
module Progress {
  import opened ScanTypes
  import opened PendingKey
  import opened Convert
  import opened Coordinator
  import opened Protocol
  import opened Safety
  import opened Targets
  import opened Shutdown
  import opened Counting
  import Delivery
  import Shard
  import Sink

  // ---- A worker can receive its whole shard ----

  // How many steps call c is from the end of its shard.
  function CallOwes(s: System, c: nat): nat
    requires c < |s.calls|
  {
    (if s.calls[c].stage.Waiting? then 1 else 0) + 2 * Max(0, |ShardOf(s, c)| - s.calls[c].sent) + |s.calls[c].inFlight|
  }

  // Call c's next step towards that.
  function CallAction(s: System, c: nat): Option<CallStep>
    requires c < |s.calls|
  {
    if s.calls[c].stage.Waiting? then Some(Proceed(c))
    else if s.calls[c].inFlight != [] then Some(Deliver(c))
    else if s.calls[c].sent < |ShardOf(s, c)| then Some(Push(c))
    else None
  }

  // Only call c has moved.
  ghost predicate OnlyCall(s: System, c: nat, s': System) {
    && s' == s.(calls := s'.calls) && |s'.calls| == |s.calls|
    && forall d :: 0 <= d < |s.calls| && d != c ==> s'.calls[d] == s.calls[d]
  }

  lemma CallActionWorks(s: System, c: nat)
    requires RendezvousOk(s) && Live(s) && s.coord.ready && c < |s.calls| && !s.calls[c].stage.Returned?
    requires CallAction(s, c).Some?
    ensures CanCall(s, CallAction(s, c).value)
    ensures var s' := ActCall(s, CallAction(s, c).value);
            OnlyCall(s, c, s') && s'.calls[c].stage.Pushing? && CallOwes(s', c) < CallOwes(s, c)
  {
    assert CallOk(s, c);
  }

  // As long as the run is live and its worker stays connected, a call can be brought to have
  // sent its whole shard, and the worker to have received all of it, in order.
  lemma {:induction false} CanReceiveShard(su: Setup, s: System, c: nat) returns (acts: seq<Action>, s': System)
    requires Inv(su, s) && Live(s) && s.coord.ready && c < |s.calls| && !s.calls[c].stage.Returned?
    ensures Reaches(su, s, acts, s') && Inv(su, s') && OnlyCall(s, c, s')
    ensures s'.calls[c].sent == |s.coord.shards[c]| && s'.calls[c].got == Decoded(Encoded(s.coord.shards[c]))
    decreases CallOwes(s, c)
  {
    assert CallOk(s, c);
    if CallAction(s, c).None? {
      ShardIsReceived(s, c);
      return [], s;
    }
    CallActionWorks(s, c);
    var a := OnCall(CallAction(s, c).value);
    var m := Act(su, s, a);
    OneStep(su, s, a, m);
    acts, s' := CanReceiveShard(su, m, c);
    ReachesThen(su, s, [a], m, acts, s');
    acts := [a] + acts;
  }

  lemma ShardIsReceived(s: System, c: nat)
    requires RendezvousOk(s) && s.coord.ready && c < |s.calls| && !s.calls[c].stage.Returned? && CallAction(s, c).None?
    ensures s.calls[c].sent == |s.coord.shards[c]| && s.calls[c].got == Decoded(Encoded(s.coord.shards[c]))
  {
    assert CallOk(s, c);
    var call, shard := s.calls[c], s.coord.shards[c];
    assert shard[..call.sent] == shard;
    assert call.got + Decoded([]) == call.got;
  }

  // ---- A handler can work off its stream ----

  // The next step of stream k's handler with the record in its hand, or of the sink it waits for.
  function RecordAction(s: System, k: nat): Option<Action>
    requires k < |s.streams|
  {
    match s.streams[k].hand
    case Empty => None
    case Clearing(_) => Some(OnStream(Clear(k)))
    case Forwarding(_) =>
      if CanSend(s) then Some(OnStream(Forward(k)))
      else if Sink.Next(s.sink).Some? then Some(SinkMoves(Sink.Next(s.sink).value))
      else None
  }

  // Only stream k's handler has moved, and the sink.
  ghost predicate OnlyStream(s: System, k: nat, s': System)
    requires k < |s.streams|
  {
    && s' == s.(coord := s.coord.(pending := s'.coord.pending), streams := s'.streams, sink := s'.sink,
                received := s'.received, cleared := s'.cleared)
    && |s'.streams| == |s.streams| && s.received <= s'.received
    && s'.streams[k].seen + s'.streams[k].inbox == s.streams[k].seen + s.streams[k].inbox
    && forall j :: 0 <= j < |s.streams| && j != k ==> s'.streams[j] == s.streams[j]
  }

  // What the rest of the stream would have the handler hear.
  ghost predicate Hears(codec: Codec, s: System, k: nat, s': System)
    requires k < |s.streams|
  {
    forall w :: w in s.streams[k].inbox && FromProtoResult(codec, w).Ok? ==>
                  RecordKey(FromProtoResult(codec, w).value) in s'.received
  }

  // A step that brings the record nearer the sink, and takes nothing off the stream.
  ghost predicate Serves(su: Setup, s: System, k: nat, a: Action) {
    && k < |s.streams| && Can(s, a)
    && var s' := Act(su, s, a);
       && OnlyStream(s, k, s') && s'.streams[k].open && s'.streams[k].inbox == s.streams[k].inbox
       && (BusyWith(s'.streams[k].hand) < BusyWith(s.streams[k].hand)
           || (s'.streams[k].hand == s.streams[k].hand && Sink.Owed(s'.sink) < Sink.Owed(s.sink)))
  }

  lemma RecordActionWorks(su: Setup, s: System, k: nat)
    requires SinkOk(su, s) && Live(s) && k < |s.streams| && s.streams[k].open && !s.streams[k].hand.Empty?
    ensures RecordAction(s, k).Some? && Serves(su, s, k, RecordAction(s, k).value)
  {
    if s.streams[k].hand.Forwarding? && !CanSend(s) {
      Sink.SinkCanMove(s.sink);
    }
  }

  lemma OnlyStreamThen(s: System, k: nat, m: System, s': System)
    requires k < |s.streams| && OnlyStream(s, k, m) && OnlyStream(m, k, s')
    ensures OnlyStream(s, k, s')
  {
  }

  // The record in a handler's hand can be brought into the sink.
  lemma {:induction false} CanFinishRecord(su: Setup, s: System, k: nat) returns (acts: seq<Action>, s': System)
    requires Inv(su, s) && Live(s) && k < |s.streams| && s.streams[k].open
    ensures Reaches(su, s, acts, s') && OnlyStream(s, k, s') && s'.streams[k].open
    ensures s'.streams[k].hand.Empty? && s'.streams[k].inbox == s.streams[k].inbox
    decreases BusyWith(s.streams[k].hand), Sink.Owed(s.sink)
  {
    if s.streams[k].hand.Empty? {
      return [], s;
    }
    RecordActionWorks(su, s, k);
    var a := RecordAction(s, k).value;
    var m := Act(su, s, a);
    OneStep(su, s, a, m);
    acts, s' := CanFinishRecord(su, m, k);
    ReachesThen(su, s, [a], m, acts, s');
    acts := [a] + acts;
    OnlyStreamThen(s, k, m, s');
  }

  // What the handler hears next.
  ghost predicate ReceivesFirst(codec: Codec, s: System, k: nat, s': System)
    requires k < |s.streams| && k < |s'.streams|
  {
    && s.streams[k].inbox != [] && s'.streams[k].inbox == s.streams[k].inbox[1..]
    && var rec := FromProtoResult(codec, s.streams[k].inbox[0]);
       s.coord.ready && rec.Ok? ==> RecordKey(rec.value) in s'.received
  }

  lemma ReceiveWorks(codec: Codec, s: System, k: nat)
    requires CanStream(s, Receive(k))
    ensures var m := ActStream(codec, s, Receive(k));
            OnlyStream(s, k, m) && m.streams[k].open && ReceivesFirst(codec, s, k, m)
  {
    Delivery.OneMoved(s.streams[k].seen, s.streams[k].inbox);
  }

  lemma CanReceive(su: Setup, s: System, k: nat) returns (a: Action, m: System)
    requires Inv(su, s) && CanStream(s, Receive(k))
    ensures Reaches(su, s, [a], m) && Inv(su, m) && OnlyStream(s, k, m) && m.streams[k].open
    ensures ReceivesFirst(su.codec, s, k, m)
  {
    a, m := OnStream(Receive(k)), ActStream(su.codec, s, Receive(k));
    ReceiveWorks(su.codec, s, k);
    OneStep(su, s, a, m);
  }

  // As long as the run is live, the handler of an open stream can be brought to the end of it
  // without giving up a record: it has received everything, and heard every key if the shards exist.
  lemma {:induction false} CanDrainStream(su: Setup, s: System, k: nat) returns (acts: seq<Action>, s': System)
    requires Inv(su, s) && Live(s) && k < |s.streams| && s.streams[k].open
    ensures Reaches(su, s, acts, s') && OnlyStream(s, k, s')
    ensures s'.streams[k].inbox == [] && s'.streams[k].hand.Empty?
    ensures s.coord.ready ==> Hears(su.codec, s, k, s')
    decreases |s.streams[k].inbox|, 1
  {
    var idle;
    acts, idle := CanFinishRecord(su, s, k);
    ReachesInv(su, s, acts, idle);
    if s.streams[k].inbox == [] {
      return acts, idle;
    }
    var more;
    more, s' := CanDrainIdle(su, idle, k);
    ReachesThen(su, s, acts, idle, more, s');
    acts := acts + more;
    OnlyStreamThen(s, k, idle, s');
  }

  lemma {:induction false} CanDrainIdle(su: Setup, s: System, k: nat) returns (acts: seq<Action>, s': System)
    requires Inv(su, s) && Live(s) && k < |s.streams| && s.streams[k].open
    requires s.streams[k].hand.Empty? && s.streams[k].inbox != []
    ensures Reaches(su, s, acts, s') && OnlyStream(s, k, s')
    ensures s'.streams[k].inbox == [] && s'.streams[k].hand.Empty?
    ensures s.coord.ready ==> Hears(su.codec, s, k, s')
    decreases |s.streams[k].inbox|, 0
  {
    var a, m := CanReceive(su, s, k);
    acts, s' := CanDrainStream(su, m, k);
    ReachesThen(su, s, [a], m, acts, s');
    acts := [a] + acts;
    OnlyStreamThen(s, k, m, s');
    if s.coord.ready {
      HearsEarlier(su.codec, s, k, m, s');
    }
  }

  lemma HearsEarlier(codec: Codec, s: System, k: nat, m: System, s': System)
    requires k < |s.streams| && k < |m.streams| && s.coord.ready && ReceivesFirst(codec, s, k, m)
    requires Hears(codec, m, k, s') && m.received <= s'.received
    ensures Hears(codec, s, k, s')
  {
    assert s.streams[k].inbox == [s.streams[k].inbox[0]] + m.streams[k].inbox;
  }

  // ---- A whole scan can succeed ----

  ghost predicate Received(s: System, n: nat) {
    n <= |s.calls| <= |s.coord.shards|
    && forall c :: 0 <= c < n ==> s.calls[c].got == Decoded(Encoded(s.coord.shards[c]))
  }

  lemma {:induction false} AllCanReceive(su: Setup, s: System, n: nat) returns (acts: seq<Action>, s': System)
    requires Inv(su, s) && Live(s) && s.coord.ready && n <= |s.calls|
    requires forall c :: 0 <= c < |s.calls| ==> s.calls[c].stage.Waiting?
    ensures Reaches(su, s, acts, s') && Inv(su, s') && s' == s.(calls := s'.calls) && |s'.calls| == |s.calls|
    ensures Received(s', n) && forall c :: n <= c < |s.calls| ==> s'.calls[c].stage.Waiting?
  {
    if n == 0 {
      return [], s;
    }
    var m, more;
    acts, m := AllCanReceive(su, s, n - 1);
    more, s' := CanReceiveShard(su, m, n - 1);
    ReachesThen(su, s, acts, m, more, s');
    acts := acts + more;
  }

  lemma {:induction false} CanReportAll(su: Setup, s: System, k: nat, ws: seq<WireResult>)
    returns (acts: seq<Action>, s': System)
    requires k < |s.streams|
    ensures Reaches(su, s, acts, s')
    ensures s' == s.(streams := s.streams[k := s.streams[k].(inbox := s.streams[k].inbox + ws)])
  {
    if ws == [] {
      assert s.streams[k].inbox + ws == s.streams[k].inbox;
      return [], s;
    }
    var front, last := ws[..|ws| - 1], ws[|ws| - 1];
    var m;
    acts, m := CanReportAll(su, s, k, front);
    acts, s' := OneMoreReport(su, s, acts, m, Report(k, last));
    assert s.streams[k].inbox + front + [last] == s.streams[k].inbox + ws;
  }

  // Every worker has its shard, and these results wait on the one stream there is.
  lemma CanShareAndReport(su: Setup, drained: seq<Target>, ws: seq<WireResult>) returns (acts: seq<Action>, s: System)
    requires su.workers > 0
    ensures Reaches(su, Start(su), acts, s) && s.phase.Serving? && s.coord.ready && !s.ctxDone
    ensures multiset(Shard.Flatten(s.coord.shards)) == multiset(drained) && Received(s, su.workers)
    ensures |s.streams| == 1 && s.streams[0].open && s.streams[0].inbox == ws && s.streams[0].seen == []
  {
    var m;
    acts := CallersArrive(su, su.workers - 1);
    acts, m := LastArrives(su, Start(su), acts, Arrived(su, su.workers - 1), drained);
    acts, m := ShareFrom(su, acts, m);
    acts, m := OneMoreReport(su, Start(su), acts, m, OpenStream);
    var more;
    more, s := CanReportAll(su, m, 0, ws);
    ReachesThen(su, Start(su), acts, m, more, s);
    acts := acts + more;
    assert [] + ws == ws;
  }

  lemma ShareFrom(su: Setup, acts: seq<Action>, m: System) returns (more: seq<Action>, s: System)
    requires Reaches(su, Start(su), acts, m) && Live(m) && m.coord.ready
    requires forall c :: 0 <= c < |m.calls| ==> m.calls[c].stage.Waiting?
    ensures Reaches(su, Start(su), more, s) && s == m.(calls := s.calls) && Received(s, su.workers)
  {
    RunsKeepInv(su, acts, m);
    more, s := AllCanReceive(su, m, |m.calls|);
    ReachesThen(su, Start(su), acts, m, more, s);
    more := acts + more;
  }

  // For any target list, and any results that answer for all of it, there is a run that is never
  // cancelled, hands every worker its whole shard, and ends with every one of these results in
  // every output, and nothing reported as unresolved.
  lemma ScanCanSucceed(su: Setup, drained: seq<Target>, ws: seq<WireResult>) returns (acts: seq<Action>, s: System)
    requires su.workers > 0
    requires forall t :: t in drained ==> AnsweredIn(su.codec, ws, KeyOf(t))
    ensures Reaches(su, Start(su), acts, s) && s.phase.Closed? && !s.ctxDone
    ensures multiset(Shard.Flatten(s.coord.shards)) == multiset(drained) && Received(s, su.workers)
    ensures forall i, j :: 0 <= j < |s.sink.written| && i in s.sink.written[j] ==> !i.synthetic
    ensures |s.sink.written| == su.outputs
    ensures forall w, j :: 0 <= j < su.outputs && w in ws && FromProtoResult(su.codec, w).Ok? ==>
                             Item(FromProtoResult(su.codec, w).value, false) in s.sink.written[j]
  {
    var shared, m;
    acts, shared := CanShareAndReport(su, drained, ws);
    acts, m := DrainFrom(su, acts, shared, ws);
    AllAreAccepted(su, acts, m, ws);
    AllAreHeard(su, drained, ws, shared, m);
    acts, m := OneMoreTurn(su, Start(su), acts, m, ServeFails);
    acts, s := StopAfter(su, acts, m);
    NothingIsMadeUp(su, acts, s);
  }

  ghost predicate AnsweredIn(codec: Codec, ws: seq<WireResult>, key: string) {
    exists w :: w in ws && FromProtoResult(codec, w).Ok? && RecordKey(FromProtoResult(codec, w).value) == key
  }

  lemma DrainFrom(su: Setup, acts: seq<Action>, m: System, ws: seq<WireResult>) returns (more: seq<Action>, s: System)
    requires Reaches(su, Start(su), acts, m) && Live(m) && m.coord.ready
    requires |m.streams| == 1 && m.streams[0].open && m.streams[0].inbox == ws && m.streams[0].seen == []
    ensures Reaches(su, Start(su), more, s) && OnlyStream(m, 0, s) && Hears(su.codec, m, 0, s)
    ensures s.streams[0].hand.Empty? && s.streams[0].seen == ws
  {
    RunsKeepInv(su, acts, m);
    more, s := CanDrainStream(su, m, 0);
    ReachesThen(su, Start(su), acts, m, more, s);
    more := acts + more;
    assert s.streams[0].seen + [] == s.streams[0].seen && [] + ws == ws;
  }

  // A handler that is through with its stream has had every decodable result accepted.
  lemma DrainedIsAccepted(su: Setup, s: System, r: Record)
    requires StreamsOk(su, s) && ForwardedOk(su, s) && s.dropped == [] && |s.streams| == 1 && s.streams[0].hand.Empty?
    requires r in Decodable(su.codec, s.streams[0].seen)
    ensures Item(r, false) in s.sink.accepted
  {
    var st := s.streams[0];
    assert StreamOk(su, st);
    assert Acknowledged(su.codec, st) == Decodable(su.codec, st.seen);
    CountSome(Acknowledged(su.codec, st), IsRecord(r));
    assert ForwardsExactly(su, s, r);
    CountSome(s.sink.accepted, IsGenuine(r));
  }

  lemma AllAreAccepted(su: Setup, acts: seq<Action>, s: System, ws: seq<WireResult>)
    requires Reaches(su, Start(su), acts, s) && !s.ctxDone
    requires |s.streams| == 1 && s.streams[0].hand.Empty? && s.streams[0].seen == ws
    ensures forall w :: w in ws && FromProtoResult(su.codec, w).Ok? ==>
                          Item(FromProtoResult(su.codec, w).value, false) in s.sink.accepted
  {
    RunsKeepInv(su, acts, s);
    forall w | w in ws && FromProtoResult(su.codec, w).Ok?
      ensures Item(FromProtoResult(su.codec, w).value, false) in s.sink.accepted
    {
      var i :| 0 <= i < |ws| && ws[i] == w;
      DecodableIff(su.codec, ws, FromProtoResult(su.codec, w).value);
      DrainedIsAccepted(su, s, FromProtoResult(su.codec, w).value);
    }
  }

  lemma AllAreHeard(su: Setup, drained: seq<Target>, ws: seq<WireResult>, m: System, s: System)
    requires forall t :: t in drained ==> AnsweredIn(su.codec, ws, KeyOf(t))
    requires |m.streams| > 0 && m.streams[0].inbox == ws && Hears(su.codec, m, 0, s)
    requires multiset(Shard.Flatten(s.coord.shards)) == multiset(drained)
    ensures ShardKeys(s.coord) <= s.received
  {
    forall t | t in Shard.Flatten(s.coord.shards)
      ensures KeyOf(t) in s.received
    {
      assert t in multiset(drained);
      assert AnsweredIn(su.codec, ws, KeyOf(t));
    }
  }

  lemma NothingIsMadeUp(su: Setup, acts: seq<Action>, s: System)
    requires Reaches(su, Start(su), acts, s) && s.phase.Closed? && !s.ctxDone && ShardKeys(s.coord) <= s.received
    ensures |s.sink.written| == su.outputs
    ensures forall j :: 0 <= j < su.outputs ==> s.sink.written[j] == s.sink.accepted
    ensures forall i :: i in s.sink.accepted ==> !i.synthetic
  {
    Delivery.NothingToReportIff(su, acts, s);
    RunsKeepInv(su, acts, s);
    FinishedSink(su, s);
    assert Synthetic(s.sink.accepted) == [];
    forall i | i in s.sink.accepted
      ensures !i.synthetic
    {
      Delivery.SyntheticIsSubsequence(s.sink.accepted, i);
    }
  }
}
