/** How a run ends: it always can, and exactly when its end may lose what is unresolved. */
module Shutdown {
  import opened ScanTypes
  import opened PendingKey
  import opened Convert
  import opened Coordinator
  import opened Protocol
  import opened Safety
  import opened Counting
  import Delivery
  import Shard
  import Sink

  lemma {:induction false} ReachesThen(su: Setup, s: System, a: seq<Action>, m: System, b: seq<Action>, s': System)
    requires Reaches(su, s, a, m) && Reaches(su, m, b, s')
    ensures Reaches(su, s, a + b, s')
    decreases |a|
  {
    if a == [] {
      assert a + b == b;
    } else {
      ReachesThen(su, Act(su, s, a[0]), a[1..], m, b, s');
      assert (a + b)[1..] == a[1..] + b;
    }
  }

  lemma ReachesOne(su: Setup, s: System, a: Action)
    requires Can(s, a)
    ensures Reaches(su, s, [a], Act(su, s, a))
  {
    assert Reaches(su, Act(su, s, a), [a][1..], Act(su, s, a));
  }

  // What runCoordinator's goroutine, or the sink's, does next once no handler is left.
  function NextAction(s: System): Option<Action> {
    match s.phase
    case Reporting(order, next) =>
      if next == |order| then Some(OnRun(CloseSink))
      else if s.ctxDone then Some(OnRun(ReportGiveUp))
      else if CanSend(s) then Some(OnRun(ReportNext))
      else if Sink.Next(s.sink).Some? then Some(SinkMoves(Sink.Next(s.sink).value))
      else None
    case Closing(_) => if Sink.Next(s.sink).Some? then Some(SinkMoves(Sink.Next(s.sink).value)) else Some(OnRun(Leave))
    case _ => None
  }

  // A bound on the steps still to come, given the outputs and what the sink owes.
  function StepsLeft(phase: Phase, outputs: nat, owed: nat): nat {
    match phase
    case Reporting(order, next) => Max(0, |order| - next) * (outputs + 3) + owed + 2
    case Closing(_) => owed + 1
    case _ => 0
  }

  function Remaining(s: System): nat {
    StepsLeft(s.phase, |s.sink.written|, Sink.Owed(s.sink))
  }

  lemma EnqueueOwes(k: Sink.SinkState<Item>, i: Item)
    requires Sink.CanStep(k, Sink.Enqueue(i))
    ensures Sink.Owed(Sink.Step(k, Sink.Enqueue(i))) == Sink.Owed(k) + |k.written| + 2
  {
    var n := |k.written| + 2;
    assert (|k.queue| + 1) * n == |k.queue| * n + n;
  }

  // Nothing is heard, no call moves, no cancelling, and a done context lets nothing through.
  ghost predicate WindsDown(s: System, s': System) {
    && s'.coord == s.coord.(pending := s'.coord.pending) && s'.calls == s.calls
    && s'.received == s.received && s'.early == s.early && s'.ctxDone == s.ctxDone
    && s.sink.accepted <= s'.sink.accepted && (s.ctxDone ==> s'.sink.accepted == s.sink.accepted)
  }

  // An action that is possible and brings the end nearer.
  ghost predicate Advances(su: Setup, s: System, a: Action) {
    && a != OnRun(Cancel) && Can(s, a)
    && var s' := Act(su, s, a);
       Remaining(s') < Remaining(s) && WindsDown(s, s') && Order(s') == Order(s) && !Live(s')
  }

  lemma SinkTurnAdvances(su: Setup, s: System)
    requires Sink.Refines(s.sink) && (s.sink.closed || s.sink.queue != []) && Sink.Next(s.sink).Some?
    requires s.phase.Closing? || s.phase.Reporting?
    ensures Advances(su, s, SinkMoves(Sink.Next(s.sink).value))
  {
    Sink.SinkCanMove(s.sink);
    var k := Sink.Step(s.sink, Sink.Next(s.sink).value);
    assert Act(su, s, SinkMoves(Sink.Next(s.sink).value)) == s.(sink := k);
    OwingLessIsNearer(s.phase, |s.sink.written|, Sink.Owed(k), Sink.Owed(s.sink));
  }

  lemma OwingLessIsNearer(phase: Phase, outputs: nat, less: nat, more: nat)
    requires less < more && (phase.Reporting? || phase.Closing?)
    ensures StepsLeft(phase, outputs, less) < StepsLeft(phase, outputs, more)
  {
  }

  lemma ReportTurnAdvances(su: Setup, s: System)
    requires s.phase.Reporting? && s.phase.next < |s.phase.order| && (s.ctxDone || CanSend(s))
    ensures Advances(su, s, OnRun(if s.ctxDone then ReportGiveUp else ReportNext))
  {
    var n, w := |s.phase.order| - s.phase.next, |s.sink.written| + 3;
    assert (n - 1) * w + w == n * w;
    if !s.ctxDone {
      EnqueueOwes(s.sink, Made(s.phase.order[s.phase.next]));
    }
  }

  lemma NextActionWorks(su: Setup, s: System)
    requires SinkOk(su, s) && SnapshotOk(s) && (s.phase.Reporting? || s.phase.Closing?)
    ensures NextAction(s).Some? && Advances(su, s, NextAction(s).value)
  {
    if s.phase.Closing? {
      ClosingAdvances(su, s);
    } else if s.phase.next < |s.phase.order| {
      if s.ctxDone || CanSend(s) {
        ReportTurnAdvances(su, s);
      } else {
        Sink.SinkCanMove(s.sink);
        SinkTurnAdvances(su, s);
      }
    }
  }

  lemma ClosingAdvances(su: Setup, s: System)
    requires SinkOk(su, s) && s.phase.Closing?
    ensures NextAction(s).Some? && Advances(su, s, NextAction(s).value)
  {
    Sink.SinkCanMove(s.sink);
    if Sink.Next(s.sink).Some? {
      SinkTurnAdvances(su, s);
    }
  }

  // From any state in which ReportUnresolved has begun, the run can be brought to its end
  // without the context changing; if the context is done, without sending anything more.
  lemma {:induction false} CanFinish(su: Setup, s: System) returns (acts: seq<Action>, s': System)
    requires Inv(su, s) && !Live(s)
    ensures Reaches(su, s, acts, s') && s'.phase.Closed? && OnRun(Cancel) !in acts
    ensures WindsDown(s, s') && Order(s') == Order(s)
    decreases Remaining(s)
  {
    if s.phase.Closed? {
      return [], s;
    }
    NextActionWorks(su, s);
    var a := NextAction(s).value;
    KeepsInv(su, s, a);
    acts, s' := CanFinish(su, Act(su, s, a));
    ReachesOne(su, s, a);
    ReachesThen(su, s, [a], Act(su, s, a), acts, s');
    acts := [a] + acts;
  }

  // Nothing but Cancel ends the context, and once reporting, the order is fixed.
  lemma {:induction false} WithoutCancel(su: Setup, s: System, acts: seq<Action>, s': System)
    requires Reaches(su, s, acts, s') && OnRun(Cancel) !in acts && !Live(s)
    ensures s'.ctxDone == s.ctxDone && !Live(s') && Order(s') == Order(s)
    decreases |acts|
  {
    if acts != [] {
      WithoutCancel(su, Act(su, s, acts[0]), acts[1..], s');
    }
  }

  lemma DeliveredUnlessCancelled(su: Setup, s: System, acts: seq<Action>, s': System, j: nat)
    requires Inv(su, s) && s.phase.Reporting? && s.phase.next < |s.phase.order| && j < su.outputs && !s.ctxDone
    requires Reaches(su, s, acts, s') && s'.phase.Closed? && OnRun(Cancel) !in acts
    ensures Delivers(s', j, KeyOf(s.phase.order[s.phase.next]))
  {
    var order, n := s.phase.order, s.phase.next;
    WithoutCancel(su, s, acts, s');
    ReachesInv(su, s, acts, s');
    FinishedSink(su, s');
    assert Synthetic(s'.sink.accepted) == MadeAll(order);
    assert MadeAll(order)[n] == Made(order[n]);
    Delivery.SyntheticIsSubsequence(s'.sink.accepted, Made(order[n]));
    assert Is(Made(order[n]), KeyOf(order[n]), true);
  }

  lemma LostIfCancelled(su: Setup, s: System) returns (acts: seq<Action>, s': System)
    requires Inv(su, s) && s.phase.Reporting? && s.phase.next < |s.phase.order| && s.ctxDone
    ensures Reaches(su, s, acts, s') && s'.phase.Closed? && OnRun(Cancel) !in acts
    ensures |s'.sink.written| == su.outputs
    ensures forall j :: 0 <= j < su.outputs ==> s'.sink.written[j] == s.sink.accepted
    ensures !Has(s.sink.accepted, KeyOf(s.phase.order[s.phase.next]), true)
  {
    acts, s' := CanFinish(su, s);
    ReachesInv(su, s, acts, s');
    FinishedSink(su, s');
    var key := KeyOf(s.phase.order[s.phase.next]);
    forall i | 0 <= i < |s.sink.accepted|
      ensures !Is(s.sink.accepted[i], key, true)
    {
      if s.sink.accepted[i].synthetic {
        NotYetDue(s, s.sink.accepted[i]);
      }
    }
  }

  lemma FinishedSink(su: Setup, s: System)
    requires SinkOk(su, s) && s.phase.Closed?
    ensures |s.sink.written| == su.outputs && forall j :: 0 <= j < su.outputs ==> s.sink.written[j] == s.sink.accepted
  {
    forall j: nat | j < su.outputs
      ensures s.sink.written[j] == s.sink.accepted
    {
      Sink.DrainedShowsAll(s.sink, j);
    }
  }

  ghost predicate Delivers(s: System, j: nat, key: string) {
    j < |s.sink.written| && Has(s.sink.written[j], key, true)
  }

  // However the run finishes without further cancellation, output j gets a synthetic record for key.
  ghost predicate AlwaysDelivers(su: Setup, s: System, j: nat, key: string) {
    forall acts, s' :: Reaches(su, s, acts, s') && s'.phase.Closed? && OnRun(Cancel) !in acts ==> Delivers(s', j, key)
  }

  // The exact condition. Let ReportUnresolved be about to send the record for some target.
  // That record is sure to reach an output if and only if the context is not done already.
  lemma UnresolvedIsDeliveredIffNotCancelled(su: Setup, s: System, j: nat)
    requires Inv(su, s) && s.phase.Reporting? && s.phase.next < |s.phase.order| && j < su.outputs
    ensures AlwaysDelivers(su, s, j, KeyOf(s.phase.order[s.phase.next])) <==> !s.ctxDone
  {
    var key := KeyOf(s.phase.order[s.phase.next]);
    if s.ctxDone {
      NotAlwaysDelivered(su, s, j, key);
    } else {
      forall acts, s' | Reaches(su, s, acts, s') && s'.phase.Closed? && OnRun(Cancel) !in acts
        ensures Delivers(s', j, key)
      {
        DeliveredUnlessCancelled(su, s, acts, s', j);
      }
    }
  }

  lemma NotAlwaysDelivered(su: Setup, s: System, j: nat, key: string)
    requires Inv(su, s) && s.phase.Reporting? && s.phase.next < |s.phase.order| && j < su.outputs && s.ctxDone
    requires key == KeyOf(s.phase.order[s.phase.next])
    ensures !AlwaysDelivers(su, s, j, key)
  {
    var acts, s' := LostIfCancelled(su, s);
    assert !Delivers(s', j, key);
  }

  // A synthetic record accepted so far is not for the target that is next.
  lemma NotYetDue(s: System, i: Item)
    requires SnapshotOk(s) && ExactOk(s) && s.phase.Reporting? && s.phase.next < |s.phase.order|
    requires i in s.sink.accepted && i.synthetic
    ensures RecordKey(i.rec) != KeyOf(s.phase.order[s.phase.next])
  {
    var order, n := s.phase.order, s.phase.next;
    Delivery.SyntheticIsSubsequence(s.sink.accepted, i);
    var m :| 0 <= m < |MadeAll(order[..n])| && MadeAll(order[..n])[m] == i;
    assert KeyOf(order[m]) != KeyOf(order[n]);
  }

  // Some order of a map's values always exists.
  lemma {:induction false} CanEnumerate(m: map<string, Target>) returns (order: seq<Target>)
    requires forall k :: k in m ==> KeyOf(m[k]) == k
    ensures Enumerates(order, m)
    decreases |m|
  {
    if m == map[] {
      order := [];
    } else {
      var k :| k in m;
      var rest := m - {k};
      assert rest.Keys == m.Keys - {k};
      order := CanEnumerate(rest);
      EnumeratesOneMore(order, rest, m[k]);
      assert rest[k := m[k]] == m;
      order := order + [m[k]];
    }
  }

  lemma OneStep(su: Setup, s: System, a: Action, s': System)
    requires Inv(su, s) && Can(s, a) && s' == Act(su, s, a)
    ensures Reaches(su, s, [a], s') && Inv(su, s')
  {
    ReachesOne(su, s, a);
    KeepsInv(su, s, a);
  }

  // A run, one step longer.
  lemma OneMoreStep(su: Setup, s: System, acts: seq<Action>, m: System, a: Action)
    returns (more: seq<Action>, s': System)
    requires Reaches(su, s, acts, m) && Can(m, a)
    ensures Reaches(su, s, more, s') && s' == Act(su, m, a) && more == acts + [a]
  {
    s', more := Act(su, m, a), acts + [a];
    ReachesOne(su, m, a);
    ReachesThen(su, s, acts, m, [a], s');
  }

  lemma OneMoreCall(su: Setup, s: System, acts: seq<Action>, m: System, r: CallStep)
    returns (more: seq<Action>, s': System)
    requires Reaches(su, s, acts, m) && CanCall(m, r)
    ensures Reaches(su, s, more, s') && s' == ActCall(m, r) && more == acts + [OnCall(r)]
  {
    more, s' := OneMoreStep(su, s, acts, m, OnCall(r));
  }

  lemma OneMoreReport(su: Setup, s: System, acts: seq<Action>, m: System, x: StreamStep)
    returns (more: seq<Action>, s': System)
    requires Reaches(su, s, acts, m) && CanStream(m, x)
    ensures Reaches(su, s, more, s') && s' == ActStream(su.codec, m, x) && more == acts + [OnStream(x)]
  {
    more, s' := OneMoreStep(su, s, acts, m, OnStream(x));
  }

  lemma OneMoreTurn(su: Setup, s: System, acts: seq<Action>, m: System, u: RunStep)
    returns (more: seq<Action>, s': System)
    requires Reaches(su, s, acts, m) && CanRun(m, u)
    ensures Reaches(su, s, more, s') && s' == ActRun(m, u) && more == acts + [OnRun(u)]
  {
    more, s' := OneMoreStep(su, s, acts, m, OnRun(u));
  }

  // How far the handlers are from being idle.
  function Busy(streams: seq<Stream>): nat { Sum(streams, BusyOf()) }

  function BusyOf(): Stream -> nat { (st: Stream) => BusyWith(st.hand) }

  function BusyWith(hand: Hand): nat {
    match hand
    case Empty => 0
    case Clearing(_) => 2
    case Forwarding(_) => 1
  }

  // Serve is about to return, or has.
  predicate MayStop(s: System) {
    Live(s) && (s.phase.Stopping? || s.ctxDone || s.serveFailed || s.coord.aborted)
  }

  // What the handler of stream k, or the sink it waits for, does next.
  function HandlerAction(s: System, k: nat): Option<Action>
    requires k < |s.streams|
  {
    match s.streams[k].hand
    case Empty => None
    case Clearing(_) => Some(OnStream(Clear(k)))
    case Forwarding(_) =>
      if s.ctxDone then Some(OnStream(GiveUp(k)))
      else if CanSend(s) then Some(OnStream(Forward(k)))
      else if Sink.Next(s.sink).Some? then Some(SinkMoves(Sink.Next(s.sink).value))
      else None
  }

  ghost predicate Drains(su: Setup, s: System, a: Action) {
    && a != OnRun(Cancel) && Can(s, a)
    && var s' := Act(su, s, a);
       && WindsDown(s, s') && MayStop(s')
       && (Busy(s'.streams) < Busy(s.streams)
           || (s'.streams == s.streams && Sink.Owed(s'.sink) < Sink.Owed(s.sink)))
  }

  lemma HandlerTurnDrains(su: Setup, s: System, x: StreamStep)
    requires MayStop(s) && CanStream(s, x) && (x.Clear? || (x.Forward? && !s.ctxDone) || x.GiveUp?)
    ensures Drains(su, s, OnStream(x))
  {
    SumUpdate(s.streams, x.k, ActStream(su.codec, s, x).streams[x.k], BusyOf());
  }

  lemma HandlerActionWorks(su: Setup, s: System, k: nat)
    requires SinkOk(su, s) && MayStop(s) && k < |s.streams| && !s.streams[k].hand.Empty?
    ensures HandlerAction(s, k).Some? && Drains(su, s, HandlerAction(s, k).value)
  {
    if s.streams[k].hand.Clearing? {
      HandlerTurnDrains(su, s, Clear(k));
    } else if s.ctxDone {
      HandlerTurnDrains(su, s, GiveUp(k));
    } else if CanSend(s) {
      HandlerTurnDrains(su, s, Forward(k));
    } else {
      Sink.SinkCanMove(s.sink);
    }
  }

  // A run whose server may stop can always be brought to its end, whatever its handlers hold:
  // they finish, the server stops, what is pending is reported, and the sink drains.
  lemma {:induction false} CanStop(su: Setup, s: System) returns (acts: seq<Action>, s': System)
    requires Inv(su, s) && MayStop(s)
    ensures Reaches(su, s, acts, s') && s'.phase.Closed? && OnRun(Cancel) !in acts && WindsDown(s, s')
    decreases Busy(s.streams), Sink.Owed(s.sink)
  {
    if AllIdle(s) {
      acts, s' := StopFromIdle(su, s);
    } else {
      var k :| 0 <= k < |s.streams| && !s.streams[k].hand.Empty?;
      HandlerActionWorks(su, s, k);
      var a := HandlerAction(s, k).value;
      OneStep(su, s, a, Act(su, s, a));
      acts, s' := CanStop(su, Act(su, s, a));
      ReachesThen(su, s, [a], Act(su, s, a), acts, s');
      acts := [a] + acts;
    }
  }

  lemma StopFromIdle(su: Setup, s: System) returns (acts: seq<Action>, s': System)
    requires Inv(su, s) && MayStop(s) && AllIdle(s)
    ensures Reaches(su, s, acts, s') && s'.phase.Closed? && OnRun(Cancel) !in acts && WindsDown(s, s')
  {
    if s.phase.Serving? {
      var m := ServerStops(su, s);
      acts, s' := ReportAndFinish(su, m);
      ReachesThen(su, s, [OnRun(StopServer)], m, acts, s');
      acts := [OnRun(StopServer)] + acts;
    } else {
      acts, s' := ReportAndFinish(su, s);
    }
  }

  lemma ServerStops(su: Setup, s: System) returns (m: System)
    requires Inv(su, s) && MayStop(s) && s.phase.Serving?
    ensures m == s.(phase := Stopping) && Reaches(su, s, [OnRun(StopServer)], m) && Inv(su, m)
  {
    m := s.(phase := Stopping);
    OneStep(su, s, OnRun(StopServer), m);
  }

  lemma ReportAndFinish(su: Setup, s: System) returns (acts: seq<Action>, s': System)
    requires Inv(su, s) && s.phase.Stopping? && AllIdle(s)
    ensures Reaches(su, s, acts, s') && s'.phase.Closed? && OnRun(Cancel) !in acts && WindsDown(s, s')
  {
    var order := CanEnumerate(s.coord.pending);
    var m := ReportBegins(su, s, order);
    acts, s' := CanFinish(su, m);
    ReachesThen(su, s, [OnRun(BeginReport(order))], m, acts, s');
    acts := [OnRun(BeginReport(order))] + acts;
  }

  lemma ReportBegins(su: Setup, s: System, order: seq<Target>) returns (m: System)
    requires Inv(su, s) && s.phase.Stopping? && AllIdle(s) && Enumerates(order, s.coord.pending)
    ensures m == s.(phase := Reporting(order, 0)) && Reaches(su, s, [OnRun(BeginReport(order))], m) && Inv(su, m)
  {
    m := s.(phase := Reporting(order, 0));
    OneStep(su, s, OnRun(BeginReport(order)), m);
  }

  // Cancelling a run that is still serving may lose every target still pending and every
  // result a handler holds: nothing more reaches the sink, full or not.
  lemma CancelMayLoseEverythingPending(su: Setup, s: System) returns (acts: seq<Action>, s': System)
    requires Inv(su, s) && s.phase.Serving?
    ensures Reaches(su, s, acts, s') && s'.phase.Closed? && s'.ctxDone && s'.sink.accepted == s.sink.accepted
    ensures s'.coord == s.coord.(pending := s'.coord.pending)
  {
    var m;
    acts, m := OneMoreTurn(su, s, [], s, Cancel);
    ReachesInv(su, s, acts, m);
    var rest;
    rest, s' := CanStop(su, m);
    ReachesThen(su, s, acts, m, rest, s');
    acts := acts + rest;
  }

  // ---- Runs that exist ----

  function Waiters(n: nat): (calls: seq<Call>)
    ensures |calls| == n
  {
    seq(n, i requires 0 <= i < n => Call(i, Waiting, 0, [], []))
  }

  // Nothing has happened but that the first n callers have registered.
  function Arrived(su: Setup, n: nat): System {
    Start(su).(coord := NewCoord(su.workers).(arrived := n), calls := Waiters(n))
  }

  lemma {:induction false} CallersArrive(su: Setup, n: nat) returns (acts: seq<Action>)
    requires n < su.workers
    ensures Reaches(su, Start(su), acts, Arrived(su, n))
  {
    if n == 0 {
      acts := [];
      assert Arrived(su, 0) == Start(su);
    } else {
      acts := CallersArrive(su, n - 1);
      CallerArrives(su, n - 1);
      var s;
      acts, s := OneMoreCall(su, Start(su), acts, Arrived(su, n - 1), Register([], []));
    }
  }

  lemma CallerArrives(su: Setup, n: nat)
    requires n + 1 < su.workers
    ensures ActCall(Arrived(su, n), Register([], [])) == Arrived(su, n + 1)
  {
    assert Waiters(n) + [Call(n, Waiting, 0, [], [])] == Waiters(n + 1);
  }

  // The last caller registers while the run is still live.
  lemma LastArrives(su: Setup, s: System, acts: seq<Action>, m: System, drained: seq<Target>)
    returns (more: seq<Action>, s': System)
    requires Reaches(su, s, acts, m) && Consistent(m.coord) && Live(m) && m.coord.arrived + 1 == m.coord.workers
    ensures Reaches(su, s, more, s')
    ensures s' == m.(coord := s'.coord, calls := s'.calls, early := ClearingKeys(m.streams))
    ensures s'.coord.ready && s'.coord.aborted == m.coord.aborted
    ensures s'.calls == m.calls + [Call(m.coord.arrived, Waiting, 0, [], [])]
    ensures multiset(Shard.Flatten(s'.coord.shards)) == multiset(drained)
  {
    RegisterIsConsistent(m.coord, drained, []);
    more, s' := OneMoreCall(su, s, acts, m, Register(drained, []));
  }

  // Throughout the run the queue has room.
  ghost predicate RoomThroughout(su: Setup, s: System, acts: seq<Action>)
    decreases |acts|
  {
    && |s.sink.queue| < s.sink.capacity
    && (acts != [] ==> Can(s, acts[0]) && RoomThroughout(su, Act(su, s, acts[0]), acts[1..]))
  }

  lemma AcceptedGrows(su: Setup, s: System, a: Action)
    requires Can(s, a)
    ensures s.sink.accepted <= Act(su, s, a).sink.accepted
  {
  }

  lemma {:induction false} NothingAcceptedMeansRoom(su: Setup, s: System, acts: seq<Action>, s': System)
    requires Inv(su, s) && Reaches(su, s, acts, s') && s'.sink.accepted == []
    ensures s.sink.accepted == [] && RoomThroughout(su, s, acts)
    decreases |acts|
  {
    if acts != [] {
      KeepsInv(su, s, acts[0]);
      AcceptedGrows(su, s, acts[0]);
      NothingAcceptedMeansRoom(su, Act(su, s, acts[0]), acts[1..], s');
    }
  }

  // The hypothesis of Delivery.NoTargetIsLost is needed: for any number of workers and every
  // target list there is a run, cancelled but with room in its queue throughout, whose outputs
  // stay empty.
  lemma LostTargetsExist(su: Setup, drained: seq<Target>) returns (acts: seq<Action>, s: System)
    requires su.workers > 0
    ensures Reaches(su, Start(su), acts, s) && s.phase.Closed? && s.coord.ready
    ensures s.ctxDone && RoomThroughout(su, Start(su), acts)
    ensures multiset(Shard.Flatten(s.coord.shards)) == multiset(drained)
    ensures |s.sink.written| == su.outputs && forall j :: 0 <= j < su.outputs ==> s.sink.written[j] == []
  {
    acts := CallersArrive(su, su.workers - 1);
    var m;
    acts, m := LastArrives(su, Start(su), acts, Arrived(su, su.workers - 1), drained);
    var rest;
    RunsKeepInv(su, acts, m);
    rest, s := CancelMayLoseEverythingPending(su, m);
    ReachesThen(su, Start(su), acts, m, rest, s);
    acts := acts + rest;
    RunsKeepInv(su, acts, s);
    FinishedSink(su, s);
    StartsWithInv(su);
    NothingAcceptedMeansRoom(su, Start(su), acts, s);
  }

  lemma TimedOutThenReady(su: Setup, drained: seq<Target>) returns (acts: seq<Action>, s: System)
    requires su.workers > 0
    ensures Reaches(su, Start(su), acts, s) && s.phase.Serving? && s.coord.ready && s.coord.aborted
    ensures !s.ctxDone && s.received == {} && s.early == {} && forall c :: 0 <= c < |s.calls| ==> s.calls[c].sent == 0
    ensures multiset(Shard.Flatten(s.coord.shards)) == multiset(drained)
  {
    acts := CallersArrive(su, su.workers - 1);
    acts, s := OneMoreCall(su, Start(su), acts, Arrived(su, su.workers - 1), Timer);
    acts, s := LastArrives(su, Start(su), acts, s, drained);
  }

  // A register timeout does not make reporting a no-op. The timer fires with one worker
  // missing, the last one registers before the server stops, and every target of the list ends
  // in every output as unresolved, though none was ever pushed.
  lemma TimedOutRunMayReport(su: Setup, drained: seq<Target>) returns (acts: seq<Action>, s: System)
    requires su.workers > 0
    ensures Reaches(su, Start(su), acts, s) && s.phase.Closed? && s.coord.aborted && !s.ctxDone
    ensures forall c :: 0 <= c < |s.calls| ==> s.calls[c].sent == 0
    ensures forall t, j :: t in drained && 0 <= j < su.outputs ==> Delivers(s, j, KeyOf(t))
    ensures drained != [] ==> Order(s) != []
  {
    var m;
    acts, m := TimedOutThenReady(su, drained);
    acts, s := StopAfter(su, acts, m);
    forall t, j: nat | t in drained && j < su.outputs
      ensures Delivers(s, j, KeyOf(t))
    {
      assert t in multiset(Shard.Flatten(s.coord.shards));
      Delivery.NoTargetIsLost(su, acts, s, t, j);
    }
    if drained != [] {
      assert drained[0] in multiset(Shard.Flatten(s.coord.shards));
      assert KeyOf(drained[0]) in ShardKeys(s.coord);
      Delivery.NothingToReportIff(su, acts, s);
    }
  }

  // The race that NoTargetIsLost names: a result received before the last registration, but
  // deleted after it, clears its target, which then has no synthetic record although nothing
  // was received for it after the shards were computed.
  lemma EarlyResultMayClear(su: Setup, t: Target, j: nat) returns (acts: seq<Action>, s: System)
    requires su.workers > 0 && j < su.outputs
    ensures Reaches(su, Start(su), acts, s) && s.phase.Closed? && !s.ctxDone
    ensures t in Shard.Flatten(s.coord.shards) && s.received == {} && !Delivers(s, j, KeyOf(t))
  {
    var w := WireResult("", t.host, t.port, WireOk, "");
    var m;
    acts := CallersArrive(su, su.workers - 1);
    acts, m := EarlyResultIsHeld(su, acts, Arrived(su, su.workers - 1), w);
    assert KeyOf(t) in ClearingKeys(m.streams) by {
      assert RecordKey(m.streams[0].hand.rec) == KeyOf(t);
    }
    acts, m := LastArrives(su, Start(su), acts, m, [t]);
    acts, m := OneMoreTurn(su, Start(su), acts, m, ServeFails);
    acts, s := StopAfter(su, acts, m);
    assert t in multiset(Shard.Flatten(s.coord.shards));
    Delivery.NoTargetIsLost(su, acts, s, t, j);
  }

  lemma StopAfter(su: Setup, acts: seq<Action>, m: System) returns (more: seq<Action>, s: System)
    requires Reaches(su, Start(su), acts, m) && MayStop(m)
    ensures Reaches(su, Start(su), more, s) && s.phase.Closed? && WindsDown(m, s)
  {
    RunsKeepInv(su, acts, m);
    var rest;
    rest, s := CanStop(su, m);
    ReachesThen(su, Start(su), acts, m, rest, s);
    more := acts + rest;
  }

  lemma EarlyResultIsHeld(su: Setup, acts: seq<Action>, m: System, w: WireResult) returns (more: seq<Action>, s: System)
    requires Reaches(su, Start(su), acts, m) && Live(m) && m.streams == [] && !m.coord.ready
    requires FromProtoResult(su.codec, w).Ok?
    ensures Reaches(su, Start(su), more, s) && s == m.(streams := s.streams)
    ensures |s.streams| == 1 && s.streams[0].hand == Clearing(FromProtoResult(su.codec, w).value)
  {
    more, s := OneMoreReport(su, Start(su), acts, m, OpenStream);
    more, s := OneMoreReport(su, Start(su), more, s, Report(0, w));
    more, s := OneMoreReport(su, Start(su), more, s, Receive(0));
  }
}
