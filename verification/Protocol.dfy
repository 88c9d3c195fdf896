/** The distributed scan as steps of the coordinator's goroutines and of its workers, in any
    interleaving: registration, the timer, pushing shards, receiving results, and shutting down. */
module Protocol {
  import opened ScanTypes
  import opened PendingKey
  import opened Convert
  import opened Coordinator
  import Sink

  // A record in the coordinator's sink; synthetic says whether ReportUnresolved made it up.
  datatype Item = Item(rec: Record, synthetic: bool)

  // One accepted GetTargets call: its slot, how much of its shard was sent, what is on the
  // wire, and what the worker's StreamTargets has forwarded.
  datatype Stage = Waiting | Pushing | Returned
  datatype Call = Call(slot: nat, stage: Stage, sent: nat, inFlight: seq<WireTarget>, got: seq<Target>)

  // One ReportResults call. A record has left pending but not yet reached the sink while it is
  // being forwarded. acked is the handler's n; seen is every result received so far.
  datatype Hand = Empty | Clearing(rec: Record) | Forwarding(rec: Record)
  datatype Stream = Stream(inbox: seq<WireResult>, hand: Hand, open: bool, acked: nat, seen: seq<WireResult>)

  // runCoordinator: waiting for Serve, Serve has returned, reporting unresolved, closing the sink, done.
  datatype Phase =
    | Serving
    | Stopping
    | Reporting(order: seq<Target>, next: nat)
    | Closing(order: seq<Target>)
    | Closed(order: seq<Target>)

  // History: received holds the keys of the results received after the shards were computed,
  // early those of the results whose handlers were about to delete them just then, cleared the
  // keys deleted from pending since then, dropped what Send gave up on.
  datatype System = System(coord: Coord, calls: seq<Call>, streams: seq<Stream>, sink: Sink.SinkState<Item>,
                           phase: Phase, ctxDone: bool, serveFailed: bool, received: set<string>,
                           early: set<string>, cleared: set<string>, dropped: seq<Item>)

  datatype Setup = Setup(codec: Codec, workers: nat, outputs: nat, queueMax: int)

  function Start(su: Setup): System {
    System(NewCoord(su.workers), [], [], Sink.NewSink(su.outputs, su.queueMax), Serving, false, false, {}, {}, {}, [])
  }

  // GetTargets calls, at the rendezvous and after it.
  datatype CallStep =
    | Register(drained: seq<Target>, picks: seq<nat>)
    | Timer
    | Proceed(c: nat)             // the call finds ready closed
    | Refuse(c: nat)              // the call finds aborted closed
    | HangUp(c: nat)              // the worker's connection drops, or its stream is complete
    | Push(c: nat)                // one target onto the wire
    | Deliver(c: nat)             // the worker receives one
    | Lose(c: nat)                // what was on a dropped connection is gone

  // ReportResults streams and their handlers.
  datatype StreamStep =
    | OpenStream
    | Report(k: nat, w: WireResult)
    | Receive(k: nat)
    | Clear(k: nat)
    | Forward(k: nat)             // Send enqueues
    | GiveUp(k: nat)              // Send takes its ctx.Done arm
    | CloseStream(k: nat)

  // The run as a whole: its context, its server, and runCoordinator after Serve returns.
  datatype RunStep =
    | Cancel
    | ServeFails
    | StopServer
    | BeginReport(order: seq<Target>)
    | ReportNext
    | ReportGiveUp
    | CloseSink
    | Leave

  datatype Action =
    | OnCall(r: CallStep)
    | OnStream(x: StreamStep)
    | OnRun(u: RunStep)
    | SinkMoves(b: Sink.SinkStep<Item>)

  // RPC handlers run while the server does and until ReportUnresolved begins. That none runs
  // later is an assumption: it is the calling rule ReportUnresolved states for itself.
  predicate Live(s: System) { s.phase.Serving? || s.phase.Stopping? }

  function Made(t: Target): Item { Item(Unresolved(t), true) }

  function ShardOf(s: System, c: nat): seq<Target> {
    if c < |s.calls| && s.calls[c].slot < |s.coord.shards| then s.coord.shards[s.calls[c].slot] else []
  }

  function ClearingKeys(streams: seq<Stream>): set<string> {
    set k | 0 <= k < |streams| && streams[k].hand.Clearing? :: RecordKey(streams[k].hand.rec)
  }

  predicate CanSend(s: System) { |s.sink.queue| < s.sink.capacity && !s.sink.closed }

  predicate CanCall(s: System, r: CallStep) {
    match r
    case Register(_, _) => Live(s)
    case Timer => Live(s) && !s.coord.timerFired
    case Proceed(c) => Live(s) && c < |s.calls| && s.calls[c].stage.Waiting? && s.coord.ready
    case Refuse(c) => Live(s) && c < |s.calls| && s.calls[c].stage.Waiting? && s.coord.aborted
    case HangUp(c) => c < |s.calls|
    case Push(c) => Live(s) && c < |s.calls| && s.calls[c].stage.Pushing? && s.calls[c].sent < |ShardOf(s, c)|
    case Deliver(c) => c < |s.calls| && s.calls[c].inFlight != []
    case Lose(c) => c < |s.calls| && s.calls[c].stage.Returned?
  }

  predicate CanStream(s: System, x: StreamStep) {
    match x
    case OpenStream => Live(s)
    case Report(k, _) => k < |s.streams|
    case Receive(k) =>
      Live(s) && k < |s.streams| && s.streams[k].open && s.streams[k].hand.Empty? && s.streams[k].inbox != []
    case Clear(k) => Live(s) && k < |s.streams| && s.streams[k].hand.Clearing?
    case Forward(k) => Live(s) && k < |s.streams| && s.streams[k].hand.Forwarding? && CanSend(s)
    case GiveUp(k) => Live(s) && k < |s.streams| && s.streams[k].hand.Forwarding? && s.ctxDone
    case CloseStream(k) => k < |s.streams| && s.streams[k].hand.Empty?
  }

  predicate AllIdle(s: System) { forall k :: 0 <= k < |s.streams| ==> s.streams[k].hand.Empty? }

  ghost predicate CanRun(s: System, u: RunStep) {
    match u
    case Cancel => true
    case ServeFails => true
    case StopServer => s.phase.Serving? && (s.ctxDone || s.serveFailed || s.coord.aborted)
    case BeginReport(order) => s.phase.Stopping? && AllIdle(s) && Enumerates(order, s.coord.pending)
    case ReportNext => s.phase.Reporting? && s.phase.next < |s.phase.order| && CanSend(s)
    case ReportGiveUp => s.phase.Reporting? && s.phase.next < |s.phase.order| && s.ctxDone
    case CloseSink => s.phase.Reporting? && s.phase.next == |s.phase.order| && !s.sink.closed
    case Leave => s.phase.Closing? && s.sink.consumer.Exited? && s.sink.cleaned == |s.sink.written|
  }

  ghost predicate Can(s: System, a: Action) {
    match a
    case OnCall(r) => CanCall(s, r)
    case OnStream(x) => CanStream(s, x)
    case OnRun(u) => CanRun(s, u)
    case SinkMoves(b) => !b.Enqueue? && !b.Shut? && Sink.CanStep(s.sink, b)
  }

  function Enqueued(s: System, i: Item): Sink.SinkState<Item>
    requires CanSend(s)
  {
    Sink.Step(s.sink, Sink.Enqueue(i))
  }

  function ActCall(s: System, r: CallStep): System
    requires CanCall(s, r)
  {
    match r
    case Register(drained, picks) =>
      var (coord, slot) := Registered(s.coord, drained, picks);
      if slot.None? then s
      else s.(coord := coord, calls := s.calls + [Call(slot.value, Waiting, 0, [], [])],
              early := if coord.ready then ClearingKeys(s.streams) else {})
    case Timer => s.(coord := TimedOut(s.coord))
    case Proceed(c) => s.(calls := s.calls[c := s.calls[c].(stage := Pushing)])
    case Refuse(c) => s.(calls := s.calls[c := s.calls[c].(stage := Returned)])
    case HangUp(c) => s.(calls := s.calls[c := s.calls[c].(stage := Returned)])
    case Push(c) => s.(calls := s.calls[c := Pushed(s.calls[c], ShardOf(s, c))])
    case Deliver(c) => s.(calls := s.calls[c := Delivered(s.calls[c])])
    case Lose(c) => s.(calls := s.calls[c := s.calls[c].(inFlight := [])])
  }

  function Pushed(call: Call, shard: seq<Target>): Call
    requires call.sent < |shard|
  {
    call.(sent := call.sent + 1, inFlight := call.inFlight + [ToProtoTarget(shard[call.sent])])
  }

  function Delivered(call: Call): Call
    requires call.inFlight != []
  {
    call.(inFlight := call.inFlight[1..], got := call.got + [FromProtoTarget(call.inFlight[0])])
  }

  function ActStream(codec: Codec, s: System, x: StreamStep): System
    requires CanStream(s, x)
  {
    match x
    case OpenStream => s.(streams := s.streams + [Stream([], Empty, true, 0, [])])
    case Report(k, w) => s.(streams := s.streams[k := s.streams[k].(inbox := s.streams[k].inbox + [w])])
    case Receive(k) =>
      var st := s.streams[k];
      var st1 := st.(inbox := st.inbox[1..], seen := st.seen + [st.inbox[0]]);
      (match FromProtoResult(codec, st.inbox[0])
       case Err(_) => s.(streams := s.streams[k := st1])
       case Ok(rec) => s.(streams := s.streams[k := st1.(hand := Clearing(rec))],
                          received := if s.coord.ready then s.received + {RecordKey(rec)} else s.received))
    case Clear(k) =>
      var rec := s.streams[k].hand.rec;
      s.(coord := Cleared(s.coord, RecordKey(rec)),
         streams := s.streams[k := s.streams[k].(hand := Forwarding(rec))],
         cleared := if s.coord.ready then s.cleared + {RecordKey(rec)} else s.cleared)
    case Forward(k) =>
      s.(sink := Enqueued(s, Item(s.streams[k].hand.rec, false)), streams := s.streams[k := Acked(s.streams[k])])
    case GiveUp(k) =>
      s.(dropped := s.dropped + [Item(s.streams[k].hand.rec, false)], streams := s.streams[k := Acked(s.streams[k])])
    case CloseStream(k) => s.(streams := s.streams[k := s.streams[k].(open := false)])
  }

  function Acked(st: Stream): Stream { st.(hand := Empty, acked := st.acked + 1) }

  function ActRun(s: System, u: RunStep): System
    requires CanRun(s, u)
  {
    match u
    case Cancel => s.(ctxDone := true)
    case ServeFails => s.(serveFailed := true)
    case StopServer => s.(phase := Stopping)
    case BeginReport(order) => s.(phase := Reporting(order, 0))
    case ReportNext =>
      s.(sink := Enqueued(s, Made(s.phase.order[s.phase.next])), phase := Reporting(s.phase.order, s.phase.next + 1))
    case ReportGiveUp =>
      s.(dropped := s.dropped + [Made(s.phase.order[s.phase.next])],
         phase := Reporting(s.phase.order, s.phase.next + 1))
    case CloseSink => s.(sink := Sink.Step(s.sink, Sink.Shut), phase := Closing(s.phase.order))
    case Leave => s.(phase := Closed(s.phase.order))
  }

  function Act(su: Setup, s: System, a: Action): System
    requires Can(s, a)
  {
    match a
    case OnCall(r) => ActCall(s, r)
    case OnStream(x) => ActStream(su.codec, s, x)
    case OnRun(u) => ActRun(s, u)
    case SinkMoves(b) => s.(sink := Sink.Step(s.sink, b))
  }

  ghost predicate Reaches(su: Setup, s: System, acts: seq<Action>, s': System)
    decreases |acts|
  {
    if acts == [] then s == s'
    else Can(s, acts[0]) && Reaches(su, Act(su, s, acts[0]), acts[1..], s')
  }
}
