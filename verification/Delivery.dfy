/** What a whole distributed run delivers, and exactly when it may lose a target. */
module Delivery {
  import opened ScanTypes
  import opened PendingKey
  import opened Convert
  import opened Coordinator
  import opened Protocol
  import opened Safety
  import opened Targets
  import opened Counting
  import Shard
  import Sink

  // ---- The rendezvous ----

  // In every reachable state: no more callers than workers, slot c belongs to the c-th caller,
  // shards exist exactly once ready is closed, and each worker has a prefix of its own shard.
  lemma RendezvousIsSafe(su: Setup, acts: seq<Action>, s: System, c: nat)
    requires Reaches(su, Start(su), acts, s) && c < |s.calls|
    ensures |s.calls| == s.coord.arrived <= su.workers
    ensures s.calls[c].slot == c
    ensures s.coord.ready <==> s.coord.arrived == su.workers
    ensures s.coord.ready ==> |s.coord.shards| == su.workers && s.calls[c].got <= Decoded(Encoded(s.coord.shards[c]))
    ensures !s.coord.ready ==> s.calls[c].got == []
  {
    RunsKeepInv(su, acts, s);
    assert CallOk(s, c);
    var call, shard := s.calls[c], ShardOf(s, c);
    assert call.got <= call.got + Decoded(call.inFlight);
    assert Decoded(Encoded(shard[..call.sent])) <= Decoded(Encoded(shard));
  }

  // Once closed, ready stays closed and the shards stay as they are; aborted stays closed too,
  // and is never closed after ready.
  lemma ChannelsCloseOnce(su: Setup, s: System, a: Action)
    requires RendezvousOk(s) && Can(s, a)
    ensures var s' := Act(su, s, a);
            && (s.coord.ready ==> s'.coord.ready && s'.coord.shards == s.coord.shards)
            && (s.coord.aborted ==> s'.coord.aborted)
            && (s.coord.ready && s'.coord.aborted ==> s.coord.aborted)
            && (s'.coord.ready && !s.coord.ready ==>
                  a.OnCall? && a.r.Register? && s.coord.arrived == s.coord.workers - 1)
  {
    match a
    case OnCall(r) => CallClosesOnce(s, r);
    case OnStream(x) => StreamTouches(su.codec, s, x);
    case OnRun(u) => RunIsBeside(s, u);
    case SinkMoves(_) =>
  }

  lemma CallClosesOnce(s: System, r: CallStep)
    requires RendezvousOk(s) && CanCall(s, r)
    ensures var s' := ActCall(s, r);
            && (s.coord.ready ==> s'.coord.ready && s'.coord.shards == s.coord.shards)
            && (s.coord.aborted ==> s'.coord.aborted)
            && (s.coord.ready && s'.coord.aborted ==> s.coord.aborted)
            && (s'.coord.ready && !s.coord.ready ==> r.Register? && s.coord.arrived == s.coord.workers - 1)
  {
    if r.Register? {
      RegisterIsConsistent(s.coord, r.drained, r.picks);
    }
  }

  // A caller waiting at the rendezvous can leave as soon as either channel is closed.
  lemma NoCallerIsStuck(su: Setup, s: System, c: nat)
    requires Live(s) && c < |s.calls| && s.calls[c].stage.Waiting? && (s.coord.ready || s.coord.aborted)
    ensures exists r :: CanCall(s, r) && !r.HangUp? && !ActCall(s, r).calls[c].stage.Waiting?
  {
    var r := if s.coord.ready then Proceed(c) else Refuse(c);
    assert CanCall(s, r) && !ActCall(s, r).calls[c].stage.Waiting?;
  }

  // ---- Conservation ----

  // In every reachable state of every run, cancelled ones included, each target of the shards
  // is still pending, or its result is in a handler's hand, or a result for it has been
  // accepted by the sink or dropped by a Send.
  lemma EveryTargetIsAccountedFor(su: Setup, acts: seq<Action>, s: System, t: Target)
    requires Reaches(su, Start(su), acts, s) && t in Shard.Flatten(s.coord.shards)
    ensures KeyOf(t) in s.coord.pending || Accounted(s, KeyOf(t))
    ensures s.dropped != [] ==> s.ctxDone
  {
    RunsKeepInv(su, acts, s);
    assert KeyOf(t) in ShardKeys(s.coord);
  }

  // Once ReportUnresolved is over, each target still pending has had a synthetic record
  // accepted or dropped.
  lemma EveryPendingTargetIsReported(su: Setup, acts: seq<Action>, s: System, key: string)
    requires Reaches(su, Start(su), acts, s) && (s.phase.Closing? || s.phase.Closed?) && key in s.coord.pending
    ensures Has(s.sink.accepted, key, true) || Has(s.dropped, key, true)
  {
    RunsKeepInv(su, acts, s);
    ReportedMeansPassed(s, key);
  }

  lemma ReportedMeansPassed(s: System, key: string)
    requires SnapshotOk(s) && PassedOk(s) && !Live(s) && Reported(s) == |Order(s)|
    requires key in s.coord.pending && KeyOf(s.coord.pending[key]) == key
    ensures Has(s.sink.accepted, key, true) || Has(s.dropped, key, true)
  {
    var t := s.coord.pending[key];
    var j :| 0 <= j < |Order(s)| && Order(s)[j] == t;
    assert Passed(s, Made(Order(s)[j])) && Is(Made(t), key, true);
  }

  // A record is dropped only by a Send taken while the context is done.
  lemma OnlyCancelledSendsDrop(su: Setup, s: System, a: Action)
    requires Can(s, a) && Act(su, s, a).dropped != s.dropped
    ensures s.ctxDone && Act(su, s, a).sink == s.sink
    ensures (a.OnStream? && a.x.GiveUp?) || a == OnRun(ReportGiveUp)
    ensures exists i :: Act(su, s, a).dropped == s.dropped + [i]
  {
    var i := if a.OnStream? then Item(s.streams[a.x.k].hand.rec, false) else Made(s.phase.order[s.phase.next]);
    assert Act(su, s, a).dropped == s.dropped + [i];
  }

  lemma {:induction false} SyntheticIsSubsequence(items: seq<Item>, i: Item)
    ensures i in Synthetic(items) <==> i in items && i.synthetic
  {
    if items != [] {
      var front, last := items[..|items| - 1], items[|items| - 1];
      SyntheticIsSubsequence(front, i);
      assert items == front + [last];
    }
  }

  // In every reachable state: a stream has acknowledged one result for every decodable one it
  // received, but for the one its handler still holds; and over all streams, however
  // interleaved, the acknowledged results are those accepted by the sink plus those dropped.
  lemma ReportsAddUp(su: Setup, acts: seq<Action>, s: System, k: nat)
    requires Reaches(su, Start(su), acts, s) && k < |s.streams|
    ensures s.streams[k].acked == |Decodable(su.codec, s.streams[k].seen)| - if s.streams[k].hand.Empty? then 0 else 1
    ensures TotalAcked(s.streams) == Genuine(s.sink.accepted) + Genuine(s.dropped)
    ensures forall r :: Count(s.sink.accepted, IsGenuine(r)) + Count(s.dropped, IsGenuine(r))
                     == TimesAcknowledged(su.codec, s.streams, r)
  {
    RunsKeepInv(su, acts, s);
    assert StreamOk(su, s.streams[k]);
    forall r
      ensures Count(s.sink.accepted, IsGenuine(r)) + Count(s.dropped, IsGenuine(r))
           == TimesAcknowledged(su.codec, s.streams, r)
    {
      assert ForwardsExactly(su, s, r);
    }
  }

  // What was put on stream k in this run, in order.
  function PutOn(acts: seq<Action>, k: nat): seq<WireResult> {
    if acts == [] then [] else PutBy(acts[0], k) + PutOn(acts[1..], k)
  }

  function PutBy(a: Action, k: nat): seq<WireResult> {
    if a.OnStream? && a.x.Report? && a.x.k == k then [a.x.w] else []
  }

  function OnTheStream(s: System, k: nat): seq<WireResult> {
    if k < |s.streams| then s.streams[k].seen + s.streams[k].inbox else []
  }

  lemma StreamStepOnTheStream(codec: Codec, s: System, x: StreamStep, k: nat)
    requires CanStream(s, x)
    ensures OnTheStream(ActStream(codec, s, x), k) == OnTheStream(s, k) + if x.Report? && x.k == k then [x.w] else []
  {
    if k < |s.streams| {
      StreamMoves(codec, s, x, k);
      if x == Receive(k) {
        OneMoved(s.streams[k].seen, s.streams[k].inbox);
      }
    }
  }

  lemma OneMoved<T>(seen: seq<T>, inbox: seq<T>)
    requires inbox != []
    ensures seen + [inbox[0]] + inbox[1..] == seen + inbox
  {
  }

  lemma OneStepOnTheStream(su: Setup, s: System, a: Action, k: nat)
    requires Can(s, a)
    ensures OnTheStream(Act(su, s, a), k) == OnTheStream(s, k) + PutBy(a, k)
  {
    if a.OnStream? {
      StreamStepOnTheStream(su.codec, s, a.x, k);
    } else {
      assert Act(su, s, a).streams == s.streams;
    }
  }

  lemma Joined<T>(a: seq<T>, b: seq<T>, c: seq<T>)
    ensures a + b + c == a + (b + c)
  {
  }

  // What a handler received, and then what it has still to receive, is what was put on its
  // stream: nothing lost, repeated, reordered or altered on the way.
  lemma {:induction false} StreamsAreFifo(su: Setup, s: System, acts: seq<Action>, s': System, k: nat)
    requires Reaches(su, s, acts, s')
    ensures OnTheStream(s', k) == OnTheStream(s, k) + PutOn(acts, k)
    decreases |acts|
  {
    if acts != [] {
      OneStepOnTheStream(su, s, acts[0], k);
      Joined(OnTheStream(s, k), PutBy(acts[0], k), PutOn(acts[1..], k));
      StreamsAreFifo(su, Act(su, s, acts[0]), acts[1..], s', k);
    }
  }

  // A result that does not decode changes nothing but the stream it was read from.
  lemma UndecodableIsSkipped(su: Setup, s: System, k: nat)
    requires CanStream(s, Receive(k)) && FromProtoResult(su.codec, s.streams[k].inbox[0]).Err?
    ensures var s' := ActStream(su.codec, s, Receive(k));
            && s' == s.(streams := s'.streams) && |s'.streams| == |s.streams|
            && s'.streams[k].acked == s.streams[k].acked && s'.streams[k].hand.Empty?
            && forall j :: 0 <= j < |s.streams| && j != k ==> s'.streams[j] == s.streams[j]
  {
  }

  // ---- No silent loss ----

  lemma SyntheticKeys(items: seq<Item>, order: seq<Target>, pending: map<string, Target>, key: string)
    requires Synthetic(items) == MadeAll(order) && Enumerates(order, pending)
    requires key in pending ==> KeyOf(pending[key]) == key
    ensures Has(items, key, true) <==> key in pending
  {
    if key in pending {
      var i :| 0 <= i < |order| && order[i] == pending[key];
      assert MadeAll(order)[i] == Made(order[i]);
      SyntheticIsSubsequence(items, Made(order[i]));
      assert Is(Made(order[i]), key, true);
    }
    if Has(items, key, true) {
      var i :| 0 <= i < |items| && Is(items[i], key, true);
      SyntheticIsSubsequence(items, items[i]);
      var k :| 0 <= k < |MadeAll(order)| && MadeAll(order)[k] == items[i];
      assert KeyOf(order[k]) == key;
    }
  }

  // In a finished run whose context was never done, every output holds the whole accepted
  // sequence, nothing was dropped, and its synthetic records are one per pending target.
  lemma FinishedOutputs(su: Setup, acts: seq<Action>, s: System, j: nat)
    requires Reaches(su, Start(su), acts, s) && s.phase.Closed? && !s.ctxDone && j < su.outputs
    ensures j < |s.sink.written| && s.sink.written[j] == s.sink.accepted && s.dropped == []
    ensures Synthetic(s.sink.accepted) == MadeAll(s.phase.order) && Enumerates(s.phase.order, s.coord.pending)
  {
    RunsKeepInv(su, acts, s);
    Sink.DrainedShowsAll(s.sink, j);
  }

  // A finished run whose context was never done: every target of the shards has a record in
  // every output; it is synthetic exactly when no result for its key was heard, and genuine
  // otherwise, some stream having delivered the result. Heard means received after the shards
  // were computed, or received before but not yet deleted from pending by then; so a synthetic
  // record stands for "nothing received since" unless the key was caught in that race.
  lemma NoTargetIsLost(su: Setup, acts: seq<Action>, s: System, t: Target, j: nat)
    requires Reaches(su, Start(su), acts, s) && s.phase.Closed? && !s.ctxDone
    requires t in Shard.Flatten(s.coord.shards) && j < su.outputs
    ensures j < |s.sink.written|
    ensures Has(s.sink.written[j], KeyOf(t), true) <==> KeyOf(t) !in Heard(s)
    ensures Has(s.sink.written[j], KeyOf(t), true) <==> KeyOf(t) !in s.cleared
    ensures KeyOf(t) in Heard(s) ==> Has(s.sink.written[j], KeyOf(t), false) && Seen(su.codec, s, KeyOf(t))
    ensures forall i :: i in s.sink.written[j] && !i.synthetic ==> WasDelivered(su.codec, s, i.rec)
    ensures (Has(s.sink.written[j], KeyOf(t), true) <==> KeyOf(t) !in s.received)
       <==> (KeyOf(t) in s.early ==> KeyOf(t) in s.received)
  {
    RunsKeepInv(su, acts, s);
    FinishedOutputs(su, acts, s, j);
    assert KeyOf(t) in ShardKeys(s.coord);
    SyntheticKeys(s.sink.accepted, s.phase.order, s.coord.pending, KeyOf(t));
    IdleHasCleared(su, s, KeyOf(t));
    forall i | i in s.sink.written[j] && !i.synthetic
      ensures WasDelivered(su.codec, s, i.rec)
    {
      GenuineIsDelivered(su, s, i);
    }
  }

  // What stands in an output for a target that got no result: its address, and that it is unknown.
  lemma MadeUpRecord(su: Setup, acts: seq<Action>, s: System, j: nat, i: Item) returns (t: Target)
    requires Reaches(su, Start(su), acts, s) && s.phase.Closed? && !s.ctxDone && j < su.outputs
    requires j < |s.sink.written| && i in s.sink.written[j] && i.synthetic
    ensures t in Shard.Flatten(s.coord.shards) && KeyOf(t) in s.coord.pending
    ensures i.rec.moduleName == "" && (i.rec.host, i.rec.port) == (t.host, t.port) && i.rec.result.outcome == ErrUnknown
    ensures i.rec.result.value
         == Text("worker disconnected or the coordinator shut down before a result was reported for this target")
  {
    RunsKeepInv(su, acts, s);
    FinishedOutputs(su, acts, s, j);
    SyntheticIsSubsequence(s.sink.accepted, i);
    var k :| 0 <= k < |MadeAll(s.phase.order)| && MadeAll(s.phase.order)[k] == i;
    t := s.phase.order[k];
    UnresolvedIsUnknown(t);
  }

  // Once no handler holds a record, what was cleared is what was heard.
  lemma IdleHasCleared(su: Setup, s: System, key: string)
    requires ClearedOk(s) && HeardOk(su, s) && AllIdle(s)
    ensures key in s.cleared <==> key in Heard(s)
    ensures key in Heard(s) ==> Seen(su.codec, s, key)
    ensures key in Heard(s) ==> Has(s.sink.accepted, key, false) || Has(s.dropped, key, false)
  {
    assert !AwaitsClear(s, key) && !InHand(s, key);
  }

  // ---- When there is nothing to report ----

  // ReportUnresolved has nothing to send exactly when the rendezvous never completed or every
  // key of the shards has been cleared; a register timeout alone does not make it so.
  lemma NothingToReportIff(su: Setup, acts: seq<Action>, s: System)
    requires Reaches(su, Start(su), acts, s) && !Live(s)
    ensures Order(s) == [] <==> (!s.coord.ready || ShardKeys(s.coord) <= s.cleared)
    ensures Order(s) == [] <==> (!s.coord.ready || ShardKeys(s.coord) <= Heard(s))
  {
    RunsKeepInv(su, acts, s);
    EmptyOrder(Order(s), s.coord.pending);
    EmptyPending(s);
    HeardIsCleared(su, s);
  }

  lemma EmptyPending(s: System)
    requires PendingOk(s) && Consistent(s.coord)
    ensures s.coord.pending == map[] <==> (!s.coord.ready || ShardKeys(s.coord) <= s.cleared)
  {
    var pending := s.coord.pending;
    assert pending == map[] <==> pending.Keys == {};
    if s.coord.ready {
      forall k | k in ShardKeys(s.coord)
        ensures k in pending.Keys <==> k !in s.cleared
      {
      }
    }
  }

  lemma HeardIsCleared(su: Setup, s: System)
    requires ClearedOk(s) && HeardOk(su, s) && AllIdle(s)
    ensures s.cleared == Heard(s)
  {
    forall key
      ensures key in s.cleared <==> key in Heard(s)
    {
      IdleHasCleared(su, s, key);
    }
  }

  lemma EmptyOrder(order: seq<Target>, pending: map<string, Target>)
    requires Enumerates(order, pending)
    ensures order == [] <==> pending == map[]
  {
    if order != [] {
      assert KeyOf(order[0]) in pending;
    }
    if pending != map[] {
      var k :| k in pending;
      assert pending[k] in order;
    }
  }

  // ---- When the run can end ----

  // ReportUnresolved runs only after the context is done, the listener failed, or the register
  // timeout fired: a scan that goes well ends by being cancelled.
  lemma ReportingFollowsCancelOrFailure(su: Setup, acts: seq<Action>, s: System)
    requires Reaches(su, Start(su), acts, s) && !s.phase.Serving?
    ensures s.ctxDone || s.serveFailed || s.coord.aborted
  {
    RunsKeepInv(su, acts, s);
  }
}
