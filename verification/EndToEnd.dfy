/** The join: what a worker reports clears exactly the target it was given, and with workers
    that report only their targets the outputs name exactly the targets of the run. */
module EndToEnd {
  import opened ScanTypes
  import opened PendingKey
  import opened Convert
  import opened Coordinator
  import opened Protocol
  import opened Safety
  import opened Targets
  import opened Probe
  import opened Counting
  import Delivery
  import Pool
  import Shard
  import Sink
  import Watch

  // Push, probe with any module on any network, report: the result is filed under the pushed
  // target's host and its port reduced to 32 bits; so it carries the target's own key exactly
  // when that port fits.
  lemma ResultCarriesItsKey(codec: Codec, e: Engine, t: Target, n: nat, w: WireResult)
    requires codec.Lawful() && Run(e, FromProtoTarget(ToProtoTarget(t)), n).Done?
    requires ToProtoResult(codec, Run(e, FromProtoTarget(ToProtoTarget(t)), n).rec) == Ok(w)
    ensures FromProtoResult(codec, w).Ok?
    ensures RecordKey(FromProtoResult(codec, w).value) == Key(t.host, WrapInt32(t.port))
    ensures RecordKey(FromProtoResult(codec, w).value) == KeyOf(t) <==> InInt32(t.port)
  {
    var u := FromProtoTarget(ToProtoTarget(t));
    var rec := Run(e, u, n).rec;
    Watch.RecordNamesTheTarget(e, u, n);
    ResultRoundTrip(codec, rec);
    KeyInjective(t.host, WrapInt32(t.port), t.host, t.port);
  }

  // Such a result takes t's entry out of pending, and no entry of another host or port.
  lemma ResultClearsItsTargetAlone(codec: Codec, e: Engine, t: Target, n: nat, w: WireResult, c: Coord, u: Target)
    requires codec.Lawful() && InInt32(t.port) && Run(e, FromProtoTarget(ToProtoTarget(t)), n).Done?
    requires ToProtoResult(codec, Run(e, FromProtoTarget(ToProtoTarget(t)), n).rec) == Ok(w)
    ensures FromProtoResult(codec, w).Ok?
    ensures var c' := Cleared(c, RecordKey(FromProtoResult(codec, w).value));
            && KeyOf(t) !in c'.pending
            && ((u.host, u.port) != (t.host, t.port) ==> (KeyOf(u) in c'.pending <==> KeyOf(u) in c.pending))
  {
    ResultCarriesItsKey(codec, e, t, n, w);
    KeyInjective(u.host, u.port, t.host, t.port);
  }

  // What the worker's one output puts on its ReportResults stream: each record that encodes.
  function Sent(codec: Codec, rs: seq<Record>): seq<WireResult> {
    if rs == [] then []
    else
      var front, last := Sent(codec, rs[..|rs| - 1]), ToProtoResult(codec, rs[|rs| - 1]);
      if last.Ok? then front + [last.value] else front
  }

  lemma {:induction false} SentIsEncoded(codec: Codec, rs: seq<Record>, w: WireResult)
    ensures w in Sent(codec, rs) <==> exists r :: r in rs && ToProtoResult(codec, r) == Ok(w)
  {
    if rs != [] {
      var front, last := rs[..|rs| - 1], rs[|rs| - 1];
      SentIsEncoded(codec, front, w);
      assert rs == front + [last];
    }
  }

  // A result on the stream clears t at the coordinator.
  predicate ClearsTarget(codec: Codec, w: WireResult, t: Target) {
    FromProtoResult(codec, w).Ok? && RecordKey(FromProtoResult(codec, w).value) == KeyOf(t)
  }

  lemma SentResultClears(codec: Codec, rec: Record, t: Target)
    requires codec.Lawful() && InInt32(t.port) && ToProtoResult(codec, rec).Ok?
    requires (rec.host, rec.port) == (t.host, t.port)
    ensures ClearsTarget(codec, ToProtoResult(codec, rec).value, t)
  {
    ResultRoundTrip(codec, rec);
  }

  // t came over the wire, was probed by e, and this is the result on the stream.
  ghost predicate ProbedTo(codec: Codec, t: Target, e: Engine, n: nat, w: WireResult) {
    var u := FromProtoTarget(ToProtoTarget(t));
    Run(e, u, n).Done? && ToProtoResult(codec, Run(e, u, n).rec) == Ok(w)
  }

  // The three outcomes of a probe, with nil or a value that JSON can spell.
  predicate Reportable(codec: Codec, r: ProbeResult) {
    r.outcome in {OK, ErrUp, ErrUnknown} && (r.value == Nil || codec.encode(r.value).Some?)
  }

  // The worker's whole run, its context alive to the end: the shard off the wire, the pool, the
  // worker's sink with its one output, and the stream. For every target of the shard that output
  // has the record of a probe of it; and if that record is one a module may make and JSON can
  // spell, its result is on the stream and clears the target at the coordinator.
  lemma WorkerAnswersEveryTarget(codec: Codec, e: Engine, workers: int, shard: seq<Target>,
                                 steps: seq<Pool.PoolStep>, p: Pool.PoolState, t: Target)
    requires codec.Lawful() && t in shard && InInt32(t.port)
    requires Pool.Reaches(e, Pool.StartPool(workers, Decoded(Encoded(shard)), 1, 0), steps, p)
    requires !p.ctxDone && Pool.Finished(p)
    ensures |p.sink.written| == 1
    ensures exists rec :: rec in p.sink.written[0] && (rec.host, rec.port) == (t.host, t.port)
                          && Pool.IsProbeOf(e, Decoded(Encoded(shard)), rec)
                          && (Reportable(codec, rec.result) ==>
                                ReportsTo(codec, rec, t, Sent(codec, p.sink.written[0])))
  {
    var targets, x := Decoded(Encoded(shard)), (t.host, t.port);
    var i :| 0 <= i < |shard| && shard[i] == t;
    assert Pool.AddressOf(targets[i]) == x;
    CountSome(targets, Pool.IsTargetAt(x));
    Pool.PoolSendsEveryTarget(e, workers, targets, 1, 0, steps, p, x);
    Pool.FinishedShowsAll(e, workers, targets, 1, 0, steps, p, 0);
    CountSome(p.sink.accepted, Pool.IsRecordAt(x));
    var k :| 0 <= k < |p.sink.accepted| && Pool.RecordAddress(p.sink.accepted[k]) == x;
    var rec := p.sink.accepted[k];
    assert rec in p.sink.written[0];
    Pool.PoolSendsOnlyProbes(e, workers, targets, 1, 0, steps, p, rec);
    if Reportable(codec, rec.result) {
      RecordReports(codec, rec, t, p.sink.written[0]);
    }
  }

  // The record's result is among those sent, and clears t.
  ghost predicate ReportsTo(codec: Codec, rec: Record, t: Target, sent: seq<WireResult>) {
    exists w :: w in sent && ToProtoResult(codec, rec) == Ok(w) && ClearsTarget(codec, w, t)
  }

  lemma RecordReports(codec: Codec, rec: Record, t: Target, rs: seq<Record>)
    requires codec.Lawful() && InInt32(t.port) && rec in rs && (rec.host, rec.port) == (t.host, t.port)
    requires Reportable(codec, rec.result)
    ensures ReportsTo(codec, rec, t, Sent(codec, rs))
  {
    EncodesIff(codec, rec);
    SentIsEncoded(codec, rs, ToProtoResult(codec, rec).value);
    SentResultClears(codec, rec, t);
  }

  // And nothing else: each result on the stream is that of a probe of some target of the shard,
  // and clears it. So the worker is one of those that Honest describes.
  lemma WorkerAnswersNothingElse(codec: Codec, e: Engine, workers: int, shard: seq<Target>,
                                 steps: seq<Pool.PoolStep>, p: Pool.PoolState, w: WireResult)
    returns (t: Target, net: Network, n: nat)
    requires codec.Lawful() && forall u :: u in shard ==> InInt32(u.port)
    requires Pool.Reaches(e, Pool.StartPool(workers, Decoded(Encoded(shard)), 1, 0), steps, p)
    requires !p.ctxDone && Pool.Finished(p) && |p.sink.written| == 1 && w in Sent(codec, p.sink.written[0])
    ensures t in shard && ClearsTarget(codec, w, t) && ProbedTo(codec, t, e.(net := net), n, w)
  {
    SentIsEncoded(codec, p.sink.written[0], w);
    var rec :| rec in p.sink.written[0] && ToProtoResult(codec, rec) == Ok(w);
    Pool.FinishedShowsAll(e, workers, Decoded(Encoded(shard)), 1, 0, steps, p, 0);
    Pool.PoolSendsOnlyProbes(e, workers, Decoded(Encoded(shard)), 1, 0, steps, p, rec);
    var i;
    i, net, n := ProbeOfShard(e, shard, rec);
    t := shard[i];
    ResultCarriesItsKey(codec, e.(net := net), t, n, w);
  }

  lemma ProbeOfShard(e: Engine, shard: seq<Target>, rec: Record) returns (i: nat, net: Network, n: nat)
    requires Pool.IsProbeOf(e, Decoded(Encoded(shard)), rec)
    ensures i < |shard| && Pool.ProbesTo(e, FromProtoTarget(ToProtoTarget(shard[i])), net, n, rec)
  {
    i, net, n :| i < |shard| && Pool.ProbesTo(e, Decoded(Encoded(shard))[i], net, n, rec);
  }

  // ---- Runs whose workers report only what they were given ----

  // A worker reports the probe of a target it received; the target list holds only ports that fit.
  ghost predicate Honest(su: Setup, s: System, a: Action) {
    && (a.OnCall? && a.r.Register? ==> forall t :: t in a.r.drained ==> InInt32(t.port))
    && (a.OnStream? && a.x.Report? ==> exists c, i, e, n :: Answers(su, s, c, i, e, n, a.x.w))
  }

  ghost predicate Answers(su: Setup, s: System, c: nat, i: nat, e: Engine, n: nat, w: WireResult) {
    && c < |s.calls| && i < |s.calls[c].got|
    && Run(e, s.calls[c].got[i], n).Done? && ToProtoResult(su.codec, Run(e, s.calls[c].got[i], n).rec) == Ok(w)
  }

  ghost predicate HonestRun(su: Setup, s: System, acts: seq<Action>, s': System)
    decreases |acts|
  {
    if acts == [] then s == s'
    else Can(s, acts[0]) && Honest(su, s, acts[0]) && HonestRun(su, Act(su, s, acts[0]), acts[1..], s')
  }

  // The result of a probe of some target of the shards.
  ghost predicate IsAnswer(codec: Codec, shards: seq<seq<Target>>, w: WireResult) {
    exists t, e, n :: t in Shard.Flatten(shards) && ProbedTo(codec, t, e, n, w)
  }

  ghost predicate StreamAnswers(codec: Codec, shards: seq<seq<Target>>, st: Stream) {
    && (forall i :: 0 <= i < |st.inbox| ==> IsAnswer(codec, shards, st.inbox[i]))
    && (forall i :: 0 <= i < |st.seen| ==> IsAnswer(codec, shards, st.seen[i]))
  }

  // Everything on the streams is an answer.
  ghost predicate AnswersOk(su: Setup, s: System) {
    forall k :: 0 <= k < |s.streams| ==> StreamAnswers(su.codec, s.coord.shards, s.streams[k])
  }

  ghost predicate PortsFit(s: System) {
    forall t :: t in Shard.Flatten(s.coord.shards) ==> InInt32(t.port)
  }

  lemma KeepsPorts(su: Setup, s: System, a: Action)
    requires Consistent(s.coord) && PortsFit(s) && Can(s, a) && Honest(su, s, a)
    ensures PortsFit(Act(su, s, a)) && ShardKeys(s.coord) <= ShardKeys(Act(su, s, a).coord)
  {
    if a.OnCall? && a.r.Register? {
      RegisterKeepsPorts(s.coord, a.r.drained, a.r.picks);
    } else {
      assert Act(su, s, a).coord.shards == s.coord.shards;
    }
  }

  lemma RegisterKeepsPorts(c: Coord, drained: seq<Target>, picks: seq<nat>)
    requires Consistent(c) && forall t :: t in drained ==> InInt32(t.port)
    requires forall t :: t in Shard.Flatten(c.shards) ==> InInt32(t.port)
    ensures forall t :: t in Shard.Flatten(Registered(c, drained, picks).0.shards) ==> InInt32(t.port)
    ensures ShardKeys(c) <= ShardKeys(Registered(c, drained, picks).0)
  {
    RegisterIsConsistent(c, drained, picks);
    var ts := Shard.Flatten(Registered(c, drained, picks).0.shards);
    if ts != Shard.Flatten(c.shards) {
      forall t | t in ts
        ensures t in drained
      {
        assert t in multiset(ts);
      }
    }
  }

  lemma AnswersAreAnswers(su: Setup, s: System, c: nat, i: nat, e: Engine, n: nat, w: WireResult)
    requires RendezvousOk(s) && Answers(su, s, c, i, e, n, w)
    ensures IsAnswer(su.codec, s.coord.shards, w)
  {
    assert CallOk(s, c);
    var t := GotIsPushed(s.calls[c], ShardOf(s, c), i);
    Shard.FlattenContains(s.coord.shards, t);
    assert ProbedTo(su.codec, t, e, n, w);
  }

  // What a worker got at position i is what its shard holds there, as the wire leaves it.
  lemma GotIsPushed(call: Call, shard: seq<Target>, i: nat) returns (t: Target)
    requires call.sent <= |shard| && i < |call.got|
    requires call.got + Decoded(call.inFlight) <= Decoded(Encoded(shard[..call.sent]))
    ensures t in shard && call.got[i] == FromProtoTarget(ToProtoTarget(t))
  {
    var whole := call.got + Decoded(call.inFlight);
    assert whole[i] == call.got[i] == Decoded(Encoded(shard[..call.sent]))[i];
    t := shard[i];
  }

  lemma AnswersFrame(su: Setup, s: System, s': System)
    requires AnswersOk(su, s) && s'.streams == s.streams && s'.coord.shards == s.coord.shards
    ensures AnswersOk(su, s')
  {
  }

  lemma CallKeepsAnswers(su: Setup, s: System, r: CallStep)
    requires RendezvousOk(s) && AnswersOk(su, s) && NothingEarly(su, s) && CanCall(s, r)
    ensures AnswersOk(su, ActCall(s, r))
  {
    CallTouches(s, r);
    if s.coord.ready {
      Delivery.CallClosesOnce(s, r);
      AnswersFrame(su, s, ActCall(s, r));
    } else {
      forall k | 0 <= k < |s.streams|
        ensures StreamAnswers(su.codec, ActCall(s, r).coord.shards, s.streams[k])
      {
        assert Silent(s.streams[k]);
      }
    }
  }

  lemma OneStreamKeepsAnswers(codec: Codec, s: System, x: StreamStep, k: nat)
    requires CanStream(s, x) && k < |s.streams| && StreamAnswers(codec, s.coord.shards, s.streams[k])
    requires x.Report? ==> IsAnswer(codec, s.coord.shards, x.w)
    ensures StreamAnswers(codec, s.coord.shards, ActStream(codec, s, x).streams[k])
  {
    StreamMoves(codec, s, x, k);
  }

  lemma StreamKeepsAnswers(su: Setup, s: System, x: StreamStep)
    requires AnswersOk(su, s) && CanStream(s, x) && (x.Report? ==> IsAnswer(su.codec, s.coord.shards, x.w))
    ensures AnswersOk(su, ActStream(su.codec, s, x))
  {
    var s' := ActStream(su.codec, s, x);
    StreamTouches(su.codec, s, x);
    forall k | 0 <= k < |s'.streams|
      ensures StreamAnswers(su.codec, s.coord.shards, s'.streams[k])
    {
      if k < |s.streams| {
        OneStreamKeepsAnswers(su.codec, s, x, k);
      }
    }
  }

  lemma KeepsAnswers(su: Setup, s: System, a: Action)
    requires RendezvousOk(s) && AnswersOk(su, s) && NothingEarly(su, s) && Can(s, a) && Honest(su, s, a)
    ensures AnswersOk(su, Act(su, s, a))
  {
    match a
    case OnCall(r) => CallKeepsAnswers(su, s, r);
    case OnStream(x) =>
      if x.Report? {
        var c, i, e, n :| Answers(su, s, c, i, e, n, x.w);
        AnswersAreAnswers(su, s, c, i, e, n, x.w);
      }
      StreamKeepsAnswers(su, s, x);
    case OnRun(u) =>
      RunIsBeside(s, u);
      AnswersFrame(su, s, ActRun(s, u));
    case SinkMoves(b) => AnswersFrame(su, s, s.(sink := Sink.Step(s.sink, b)));
  }

  // Before the shards exist nobody reports; after that every decodable result is heard, since
  // no handler was holding one when they were computed.
  ghost predicate NothingEarly(su: Setup, s: System) {
    && s.early == {}
    && (!s.coord.ready ==> forall k :: 0 <= k < |s.streams| ==> Silent(s.streams[k]))
    && (s.coord.ready ==> forall k :: 0 <= k < |s.streams| ==> SeenKeys(su.codec, s.streams[k]) <= Heard(s))
  }

  predicate Silent(st: Stream) { st.inbox == [] && st.seen == [] }

  lemma CallKeepsNothingEarly(su: Setup, s: System, r: CallStep)
    requires RendezvousOk(s) && PendingOk(s) && StreamsOk(su, s) && NothingEarly(su, s) && CanCall(s, r)
    ensures NothingEarly(su, ActCall(s, r))
  {
    CallHears(s, r);
    if ActCall(s, r).coord.ready && !s.coord.ready {
      forall k | 0 <= k < |s.streams|
        ensures s.streams[k].hand.Empty? && SeenKeys(su.codec, s.streams[k]) == {}
      {
        assert Silent(s.streams[k]) && StreamOk(su, s.streams[k]);
      }
    }
  }

  lemma AnswersNeedShards(su: Setup, s: System, c: nat, i: nat, e: Engine, n: nat, w: WireResult)
    requires RendezvousOk(s) && Answers(su, s, c, i, e, n, w)
    ensures s.coord.ready
  {
    assert CallOk(s, c);
  }

  lemma NobodyAnswersEarly(su: Setup, s: System, x: StreamStep)
    requires RendezvousOk(s) && CanStream(s, x) && Honest(su, s, OnStream(x))
    ensures x.Report? ==> s.coord.ready
  {
    if x.Report? {
      var c, i, e, n :| Answers(su, s, c, i, e, n, x.w);
      AnswersNeedShards(su, s, c, i, e, n, x.w);
    }
  }

  lemma StreamKeepsNothingEarly(su: Setup, s: System, x: StreamStep)
    requires RendezvousOk(s) && NothingEarly(su, s) && CanStream(s, x) && Honest(su, s, OnStream(x))
    ensures NothingEarly(su, ActStream(su.codec, s, x))
  {
    var s' := ActStream(su.codec, s, x);
    StreamHears(su, s, x);
    if s.coord.ready {
      forall k | 0 <= k < |s'.streams|
        ensures SeenKeys(su.codec, s'.streams[k]) <= Heard(s')
      {
        if k < |s.streams| {
          SeenGrowsByHeard(su, s, x, k);
        }
      }
    } else {
      NobodyAnswersEarly(su, s, x);
      forall k | 0 <= k < |s'.streams|
        ensures Silent(s'.streams[k])
      {
        assert k < |s.streams| ==> Silent(s.streams[k]);
      }
    }
  }

  lemma SeenGrowsByHeard(su: Setup, s: System, x: StreamStep, k: nat)
    requires CanStream(s, x) && s.coord.ready && k < |s.streams|
    requires SeenKeys(su.codec, s.streams[k]) <= Heard(s)
    ensures SeenKeys(su.codec, ActStream(su.codec, s, x).streams[k]) <= Heard(ActStream(su.codec, s, x))
  {
    StreamHears(su, s, x);
    if x == Receive(k) {
      SeenMore(su.codec, s.streams[k], s.streams[k].inbox[0], ActStream(su.codec, s, x).streams[k]);
    } else {
      assert ActStream(su.codec, s, x).streams[k].seen == s.streams[k].seen;
    }
  }

  lemma KeepsNothingEarly(su: Setup, s: System, a: Action)
    requires RendezvousOk(s) && PendingOk(s) && StreamsOk(su, s) && NothingEarly(su, s)
    requires Can(s, a) && Honest(su, s, a)
    ensures NothingEarly(su, Act(su, s, a))
  {
    match a
    case OnCall(r) => CallKeepsNothingEarly(su, s, r);
    case OnStream(x) => StreamKeepsNothingEarly(su, s, x);
    case OnRun(u) => RunIsBeside(s, u);
    case SinkMoves(b) =>
  }

  lemma {:induction false} HonestRunInv(su: Setup, s: System, acts: seq<Action>, s': System)
    requires Inv(su, s) && PortsFit(s) && AnswersOk(su, s) && NothingEarly(su, s) && HonestRun(su, s, acts, s')
    ensures Inv(su, s') && PortsFit(s') && AnswersOk(su, s') && NothingEarly(su, s') && Reaches(su, s, acts, s')
    decreases |acts|
  {
    if acts != [] {
      KeepsInv(su, s, acts[0]);
      KeepsPorts(su, s, acts[0]);
      KeepsAnswers(su, s, acts[0]);
      KeepsNothingEarly(su, s, acts[0]);
      HonestRunInv(su, Act(su, s, acts[0]), acts[1..], s');
    }
  }

  // A finished run with such workers whose context was never done: the record of a target is
  // made up exactly when no result for its key was received after the shards were computed,
  // which is to say that no stream ever delivered a decodable one.
  lemma MadeUpIffNothingReceived(su: Setup, acts: seq<Action>, s: System, t: Target, j: nat)
    requires HonestRun(su, Start(su), acts, s) && s.phase.Closed? && !s.ctxDone
    requires t in Shard.Flatten(s.coord.shards) && j < su.outputs
    ensures j < |s.sink.written|
    ensures Has(s.sink.written[j], KeyOf(t), true) <==> KeyOf(t) !in s.received
    ensures Has(s.sink.written[j], KeyOf(t), true) <==> !Seen(su.codec, s, KeyOf(t))
    ensures Has(s.sink.written[j], KeyOf(t), false) <== Seen(su.codec, s, KeyOf(t))
  {
    StartsWithInv(su);
    HonestRunInv(su, Start(su), acts, s);
    Delivery.NoTargetIsLost(su, acts, s, t, j);
    if Seen(su.codec, s, KeyOf(t)) {
      var k :| 0 <= k < |s.streams| && KeyOf(t) in SeenKeys(su.codec, s.streams[k]);
      assert SeenKeys(su.codec, s.streams[k]) <= Heard(s);
    }
  }

  // Each genuine record in an output of such a run is, result and all, what a probe of one of the
  // shards' targets came to, as the wire leaves it: the value canonical, all else unchanged.
  lemma OutputsHoldProbeResults(su: Setup, acts: seq<Action>, s: System, j: nat, i: Item)
    returns (t: Target, e: Engine, n: nat)
    requires su.codec.Lawful() && HonestRun(su, Start(su), acts, s) && s.phase.Closed? && !s.ctxDone && j < su.outputs
    requires j < |s.sink.written| && i in s.sink.written[j] && !i.synthetic
    ensures t in Shard.Flatten(s.coord.shards) && (i.rec.host, i.rec.port) == (t.host, t.port)
    ensures Run(e, t, n).Done? && i.rec.moduleName == e.moduleName
    ensures var result := Run(e, t, n).rec.result;
            && i.rec.result.outcome == result.outcome
            && i.rec.result.value == if result.value == Nil then Nil else su.codec.canon(result.value)
  {
    StartsWithInv(su);
    HonestRunInv(su, Start(su), acts, s);
    Delivery.FinishedOutputs(su, acts, s, j);
    GenuineIsDelivered(su, s, i);
    t, e, n := DeliveredIsProbed(su, s, i.rec);
  }

  lemma DeliveredIsProbed(su: Setup, s: System, rec: Record) returns (t: Target, e: Engine, n: nat)
    requires su.codec.Lawful() && PortsFit(s) && AnswersOk(su, s) && WasDelivered(su.codec, s, rec)
    ensures t in Shard.Flatten(s.coord.shards) && Run(e, t, n).Done?
    ensures rec == Record(e.moduleName, t.host, t.port,
                          ProbeResult(Run(e, t, n).rec.result.outcome,
                                      if Run(e, t, n).rec.result.value == Nil then Nil
                                      else su.codec.canon(Run(e, t, n).rec.result.value)))
  {
    var k :| 0 <= k < |s.streams| && DeliveredOn(su.codec, s.streams[k], rec);
    var i :| 0 <= i < |s.streams[k].seen| && FromProtoResult(su.codec, s.streams[k].seen[i]) == Ok(rec);
    assert StreamAnswers(su.codec, s.coord.shards, s.streams[k]);
    t, e, n :| t in Shard.Flatten(s.coord.shards) && ProbedTo(su.codec, t, e, n, s.streams[k].seen[i]);
    TargetRoundTrip(t);
    ResultRoundTrip(su.codec, Run(e, t, n).rec);
    Watch.RecordNamesTheTarget(e, t, n);
  }

  // A finished run with such workers whose context was never done: a key occurs in an output if
  // and only if it is the key of a target of the shards. Nothing is lost and nothing is made up.
  lemma OutputsNameExactlyTheTargets(su: Setup, acts: seq<Action>, s: System, j: nat, key: string)
    requires su.codec.Lawful() && HonestRun(su, Start(su), acts, s) && s.phase.Closed? && !s.ctxDone && j < su.outputs
    ensures j < |s.sink.written|
    ensures (Has(s.sink.written[j], key, true) || Has(s.sink.written[j], key, false)) <==> key in ShardKeys(s.coord)
  {
    StartsWithInv(su);
    HonestRunInv(su, Start(su), acts, s);
    Delivery.FinishedOutputs(su, acts, s, j);
    if key in ShardKeys(s.coord) {
      var t :| t in Shard.Flatten(s.coord.shards) && KeyOf(t) == key;
      Delivery.NoTargetIsLost(su, acts, s, t, j);
    }
    if Has(s.sink.written[j], key, true) {
      Delivery.SyntheticKeys(s.sink.accepted, s.phase.order, s.coord.pending, key);
    }
    if Has(s.sink.written[j], key, false) {
      var i :| 0 <= i < |s.sink.accepted| && Is(s.sink.accepted[i], key, false);
      var t, e, n := OutputsHoldProbeResults(su, acts, s, j, s.sink.accepted[i]);
    }
  }
}
