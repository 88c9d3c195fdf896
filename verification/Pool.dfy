/** Engine.Run: a fixed pool of goroutines probing the targets of one channel into one sink. */
module Pool {
  import opened ScanTypes
  import opened Counting
  import opened FpModule
  import opened Probe
  import Sink
  import Watch

  const DEFAULT_WORKERS := 256

  function PoolSize(workers: int): (n: nat)
    ensures n > 0 && (workers > 0 ==> n == workers) && (workers <= 0 ==> n == DEFAULT_WORKERS)
  {
    if workers <= 0 then DEFAULT_WORKERS else workers
  }

  datatype Goroutine = Idle | Probing(t: Target) | Sending(rec: Record) | Stopped

  // Targets are compared by what a record can name: host and port.
  type Address = (string, int)

  function AddressOf(t: Target): Address { (t.host, t.port) }

  function RecordAddress(r: Record): Address { (r.host, r.port) }

  // input is what is left of the target channel; pulled and dropped are history.
  datatype PoolState = PoolState(goroutines: seq<Goroutine>, input: seq<Target>, ctxDone: bool,
                                 sink: Sink.SinkState<Record>, pulled: seq<Target>, dropped: seq<Record>)

  // A pool over these targets, feeding a sink with so many outputs and this queue bound.
  function StartPool(workers: int, targets: seq<Target>, outs: nat, queueMax: int): PoolState {
    PoolState(seq(PoolSize(workers), _ => Idle), targets, false, Sink.NewSink(outs, queueMax), [], [])
  }

  datatype PoolStep =
    | Pull(g: nat)                       // receive the next target
    | ProbeEnds(g: nat, net: Network, turns: nat)  // probeOne returns, having met this network
    | Accepted(g: nat)                   // the sink's queue takes the record
    | Dropped(g: nat)                    // Send gives up: the context is done
    | Leave(g: nat)                      // the channel is closed and empty, or the context is done
    | CtxDone
    | CloseSink                          // Run has returned
    | SinkMoves(b: Sink.SinkStep<Record>)

  predicate HasRoom(s: PoolState) { |s.sink.queue| < s.sink.capacity && !s.sink.closed }

  predicate AllStopped(s: PoolState) { forall g :: 0 <= g < |s.goroutines| ==> s.goroutines[g].Stopped? }

  predicate CanStep(e: Engine, s: PoolState, a: PoolStep) {
    match a
    case Pull(g) => g < |s.goroutines| && s.goroutines[g].Idle? && s.input != []
    case ProbeEnds(g, net, turns) =>
      g < |s.goroutines| && s.goroutines[g].Probing? && Run(e.(net := net), s.goroutines[g].t, turns).Done?
    case Accepted(g) => g < |s.goroutines| && s.goroutines[g].Sending? && HasRoom(s)
    case Dropped(g) => g < |s.goroutines| && s.goroutines[g].Sending? && s.ctxDone
    case Leave(g) => g < |s.goroutines| && s.goroutines[g].Idle? && (s.input == [] || s.ctxDone)
    case CtxDone => true
    case CloseSink => AllStopped(s) && !s.sink.closed
    case SinkMoves(b) => !b.Enqueue? && !b.Shut? && Sink.CanStep(s.sink, b)
  }

  function Step(e: Engine, s: PoolState, a: PoolStep): PoolState
    requires CanStep(e, s, a)
  {
    match a
    case Pull(g) =>
      s.(goroutines := s.goroutines[g := Probing(s.input[0])], input := s.input[1..], pulled := s.pulled + [s.input[0]])
    case ProbeEnds(g, net, turns) =>
      s.(goroutines := s.goroutines[g := Sending(Run(e.(net := net), s.goroutines[g].t, turns).rec)])
    case Accepted(g) =>
      s.(goroutines := s.goroutines[g := Idle], sink := Sink.Step(s.sink, Sink.Enqueue(s.goroutines[g].rec)))
    case Dropped(g) => s.(goroutines := s.goroutines[g := Idle], dropped := s.dropped + [s.goroutines[g].rec])
    case Leave(g) => s.(goroutines := s.goroutines[g := Stopped])
    case CtxDone => s.(ctxDone := true)
    case CloseSink => s.(sink := Sink.Step(s.sink, Sink.Shut))
    case SinkMoves(b) => s.(sink := Sink.Step(s.sink, b))
  }

  // How often an address occurs among targets, among records, and among the goroutines' hands.
  function IsTargetAt(x: Address): Target -> bool { t => AddressOf(t) == x }

  function IsRecordAt(x: Address): Record -> bool { r => RecordAddress(r) == x }

  function IsCarryingAt(x: Address): Goroutine -> bool { g => Carries(g, x) }

  function Named(ts: seq<Target>, x: Address): nat { Count(ts, IsTargetAt(x)) }

  function Reported(rs: seq<Record>, x: Address): nat { Count(rs, IsRecordAt(x)) }

  function Carries(g: Goroutine, x: Address): bool {
    match g
    case Probing(t) => AddressOf(t) == x
    case Sending(rec) => RecordAddress(rec) == x
    case _ => false
  }

  function InFlight(gs: seq<Goroutine>, x: Address): nat { Count(gs, IsCarryingAt(x)) }

  ghost predicate Balances(s: PoolState, x: Address) {
    Named(s.pulled, x) == InFlight(s.goroutines, x) + Reported(s.sink.accepted, x) + Reported(s.dropped, x)
  }

  // Every target pulled so far is being probed or sent, was accepted, or was dropped, as often
  // as it was pulled; and nothing is dropped while the context lives.
  ghost predicate Conserves(workers: int, targets: seq<Target>, s: PoolState) {
    && |s.goroutines| == PoolSize(workers)
    && s.pulled + s.input == targets
    && (forall x :: Balances(s, x))
    && (s.dropped != [] ==> s.ctxDone)
    && (forall g :: 0 <= g < |s.goroutines| && s.goroutines[g].Stopped? ==> s.input == [] || s.ctxDone)
  }

  lemma SendBalances(e: Engine, s: PoolState, a: PoolStep, x: Address)
    requires (a.Accepted? || a.Dropped?) && CanStep(e, s, a) && Balances(s, x)
    ensures Balances(Step(e, s, a), x)
  {
    CountPush(if a.Accepted? then s.sink.accepted else s.dropped, s.goroutines[a.g].rec, IsRecordAt(x));
    CountUpdate(s.goroutines, a.g, Idle, IsCarryingAt(x));
  }

  lemma ProbeBalances(e: Engine, s: PoolState, a: PoolStep, x: Address)
    requires a.ProbeEnds? && CanStep(e, s, a) && Balances(s, x)
    ensures Balances(Step(e, s, a), x)
  {
    Watch.RecordNamesTheTarget(e.(net := a.net), s.goroutines[a.g].t, a.turns);
    CountUpdate(s.goroutines, a.g, Step(e, s, a).goroutines[a.g], IsCarryingAt(x));
  }

  lemma StepBalances(e: Engine, s: PoolState, a: PoolStep, x: Address)
    requires CanStep(e, s, a) && Balances(s, x)
    ensures Balances(Step(e, s, a), x)
  {
    match a
    case Pull(g) =>
      CountPush(s.pulled, s.input[0], IsTargetAt(x));
      CountUpdate(s.goroutines, g, Probing(s.input[0]), IsCarryingAt(x));
    case ProbeEnds(_, _, _) => ProbeBalances(e, s, a, x);
    case Accepted(_) => SendBalances(e, s, a, x);
    case Dropped(_) => SendBalances(e, s, a, x);
    case Leave(g) => CountUpdate(s.goroutines, g, Stopped, IsCarryingAt(x));
    case _ =>
  }

  lemma StepConserves(e: Engine, workers: int, targets: seq<Target>, s: PoolState, a: PoolStep)
    requires Conserves(workers, targets, s) && CanStep(e, s, a)
    ensures Conserves(workers, targets, Step(e, s, a))
  {
    forall x
      ensures Balances(Step(e, s, a), x)
    {
      StepBalances(e, s, a, x);
    }
  }

  // rec is what probing one of these targets, on some network, came to.
  ghost predicate IsProbeOf(e: Engine, targets: seq<Target>, rec: Record) {
    exists i, net, n :: 0 <= i < |targets| && ProbesTo(e, targets[i], net, n, rec)
  }

  ghost predicate ProbesTo(e: Engine, t: Target, net: Network, n: nat, rec: Record) {
    Run(e.(net := net), t, n).Done? && Run(e.(net := net), t, n).rec == rec
  }

  // Every record sent, or about to be, is the record of a probe of one of the targets.
  ghost predicate OnlyProbes(e: Engine, targets: seq<Target>, s: PoolState) {
    && (forall t :: t in s.input ==> t in targets)
    && (forall g :: 0 <= g < |s.goroutines| && s.goroutines[g].Probing? ==> s.goroutines[g].t in targets)
    && (forall g :: 0 <= g < |s.goroutines| && s.goroutines[g].Sending? ==> IsProbeOf(e, targets, s.goroutines[g].rec))
    && (forall r :: r in s.sink.accepted || r in s.dropped ==> IsProbeOf(e, targets, r))
  }

  lemma StepKeepsProbes(e: Engine, targets: seq<Target>, s: PoolState, a: PoolStep)
    requires OnlyProbes(e, targets, s) && CanStep(e, s, a)
    ensures OnlyProbes(e, targets, Step(e, s, a))
  {
    if a.ProbeEnds? {
      var t, rec := s.goroutines[a.g].t, Step(e, s, a).goroutines[a.g].rec;
      var i :| 0 <= i < |targets| && targets[i] == t;
      assert ProbesTo(e, targets[i], a.net, a.turns, rec);
    }
  }

  // The pool's sink, fed by its goroutines alone.
  ghost predicate SinkOk(outs: nat, s: PoolState) {
    Sink.Refines(s.sink) && |s.sink.written| == outs && (s.sink.closed ==> AllStopped(s))
  }

  lemma StepKeepsSink(e: Engine, outs: nat, s: PoolState, a: PoolStep)
    requires SinkOk(outs, s) && CanStep(e, s, a)
    ensures SinkOk(outs, Step(e, s, a))
  {
    match a
    case Accepted(g) => Sink.StepRefines(s.sink, Sink.Enqueue(s.goroutines[g].rec));
    case CloseSink => Sink.StepRefines(s.sink, Sink.Shut);
    case SinkMoves(b) => Sink.StepRefines(s.sink, b);
    case _ =>
  }

  lemma StartConserves(workers: int, targets: seq<Target>, outs: nat, queueMax: int)
    ensures Conserves(workers, targets, StartPool(workers, targets, outs, queueMax))
    ensures SinkOk(outs, StartPool(workers, targets, outs, queueMax))
  {
    Sink.NewSinkRefines<Record>(outs, queueMax);
    var s := StartPool(workers, targets, outs, queueMax);
    forall x
      ensures Balances(s, x)
    {
      CountNone(s.goroutines, IsCarryingAt(x));
    }
  }

  ghost predicate Reaches(e: Engine, s: PoolState, steps: seq<PoolStep>, s': PoolState)
    decreases |steps|
  {
    if steps == [] then s == s'
    else CanStep(e, s, steps[0]) && Reaches(e, Step(e, s, steps[0]), steps[1..], s')
  }

  lemma {:induction false} ReachesConserves(e: Engine, workers: int, targets: seq<Target>, outs: nat, s: PoolState,
                                            steps: seq<PoolStep>, s': PoolState)
    requires Conserves(workers, targets, s) && SinkOk(outs, s) && Reaches(e, s, steps, s')
    ensures Conserves(workers, targets, s') && SinkOk(outs, s')
    decreases |steps|
  {
    if steps != [] {
      StepConserves(e, workers, targets, s, steps[0]);
      StepKeepsSink(e, outs, s, steps[0]);
      ReachesConserves(e, workers, targets, outs, Step(e, s, steps[0]), steps[1..], s');
    }
  }

  // Under any schedule: at most PoolSize probes run at once; targets are pulled in channel
  // order; and every pulled target is in flight, accepted or dropped, counted with multiplicity.
  lemma PoolConservesTargets(e: Engine, workers: int, targets: seq<Target>, outs: nat, queueMax: int,
                             steps: seq<PoolStep>, s: PoolState, x: Address)
    requires Reaches(e, StartPool(workers, targets, outs, queueMax), steps, s)
    ensures Count(s.goroutines, (g: Goroutine) => g.Probing?) <= PoolSize(workers)
    ensures s.pulled <= targets
    ensures Named(s.pulled, x) == InFlight(s.goroutines, x) + Reported(s.sink.accepted, x) + Reported(s.dropped, x)
    ensures s.dropped != [] ==> s.ctxDone
  {
    ReachableBalances(e, workers, targets, outs, queueMax, steps, s, x);
    CountBound(s.goroutines, (g: Goroutine) => g.Probing?);
  }

  lemma StoppedCarryNothing(s: PoolState, x: Address)
    requires AllStopped(s)
    ensures InFlight(s.goroutines, x) == 0
  {
    CountNone(s.goroutines, IsCarryingAt(x));
  }

  // Under any schedule: every record accepted or dropped is what the engine made of one of the
  // targets on some network.
  lemma PoolSendsOnlyProbes(e: Engine, workers: int, targets: seq<Target>, outs: nat, queueMax: int,
                            steps: seq<PoolStep>, s: PoolState, rec: Record)
    requires Reaches(e, StartPool(workers, targets, outs, queueMax), steps, s)
    requires rec in s.sink.accepted || rec in s.dropped
    ensures IsProbeOf(e, targets, rec)
  {
    ReachesProbes(e, targets, StartPool(workers, targets, outs, queueMax), steps, s);
  }

  lemma {:induction false} ReachesProbes(e: Engine, targets: seq<Target>, s: PoolState,
                                         steps: seq<PoolStep>, s': PoolState)
    requires OnlyProbes(e, targets, s) && Reaches(e, s, steps, s')
    ensures OnlyProbes(e, targets, s')
    decreases |steps|
  {
    if steps != [] {
      StepKeepsProbes(e, targets, s, steps[0]);
      ReachesProbes(e, targets, Step(e, s, steps[0]), steps[1..], s');
    }
  }

  // When Run returns, every goroutine having stopped, and the context was never done, the sink
  // has taken exactly one record per target, duplicates included.
  lemma PoolSendsEveryTarget(e: Engine, workers: int, targets: seq<Target>, outs: nat, queueMax: int,
                             steps: seq<PoolStep>, s: PoolState, x: Address)
    requires Reaches(e, StartPool(workers, targets, outs, queueMax), steps, s)
    requires !s.ctxDone && AllStopped(s)
    ensures Reported(s.sink.accepted, x) == Named(targets, x) && s.dropped == []
  {
    ReachableBalances(e, workers, targets, outs, queueMax, steps, s, x);
    StoppedCarryNothing(s, x);
    assert s.goroutines[0].Stopped?;
    assert s.pulled == targets;
  }

  lemma ReachableBalances(e: Engine, workers: int, targets: seq<Target>, outs: nat, queueMax: int,
                          steps: seq<PoolStep>, s: PoolState, x: Address)
    requires Reaches(e, StartPool(workers, targets, outs, queueMax), steps, s)
    ensures Balances(s, x) && |s.goroutines| == PoolSize(workers) && s.pulled + s.input == targets
    ensures s.dropped != [] ==> s.ctxDone
    ensures forall g :: 0 <= g < |s.goroutines| && s.goroutines[g].Stopped? ==> s.input == [] || s.ctxDone
  {
    StartConserves(workers, targets, outs, queueMax);
    ReachesConserves(e, workers, targets, outs, StartPool(workers, targets, outs, queueMax), steps, s);
  }

  // ---- The pool always gets done ----

  // Run has returned, and Close after it.
  predicate Finished(s: PoolState) {
    AllStopped(s) && s.sink.closed && s.sink.consumer.Exited? && s.sink.cleaned == |s.sink.written|
  }

  // Once closed and cleaned, every output of the sink has every record it accepted.
  lemma FinishedShowsAll(e: Engine, workers: int, targets: seq<Target>, outs: nat, queueMax: int,
                         steps: seq<PoolStep>, s: PoolState, j: nat)
    requires Reaches(e, StartPool(workers, targets, outs, queueMax), steps, s) && Finished(s) && j < outs
    ensures |s.sink.written| == outs && s.sink.written[j] == s.sink.accepted
  {
    StartConserves(workers, targets, outs, queueMax);
    ReachesConserves(e, workers, targets, outs, StartPool(workers, targets, outs, queueMax), steps, s);
    Sink.DrainedShowsAll(s.sink, j);
  }

  function Weight(g: Goroutine): nat {
    match g
    case Idle => 1
    case Probing(_) => 3
    case Sending(_) => 2
    case Stopped => 0
  }

  function WeightOf(): Goroutine -> nat { (g: Goroutine) => Weight(g) }

  function TotalWeight(gs: seq<Goroutine>): nat { Sum(gs, WeightOf()) }

  // What goroutine g, or the sink it waits for, does next; turns is enough for any probe.
  function NextOf(s: PoolState, g: nat, net: Network, turns: nat): Option<PoolStep>
    requires g < |s.goroutines|
  {
    match s.goroutines[g]
    case Idle => Some(if s.input == [] || s.ctxDone then Leave(g) else Pull(g))
    case Probing(_) => Some(ProbeEnds(g, net, turns))
    case Sending(_) =>
      if s.ctxDone then Some(Dropped(g))
      else if HasRoom(s) then Some(Accepted(g))
      else SinkNext(s)
    case Stopped => None
  }

  function SinkNext(s: PoolState): Option<PoolStep> {
    if Sink.Next(s.sink).None? then None else Some(SinkMoves(Sink.Next(s.sink).value))
  }

  predicate OwesLess(k': Sink.SinkState<Record>, k: Sink.SinkState<Record>) {
    Sink.Owed(k') < Sink.Owed(k) || (Sink.Owed(k') == Sink.Owed(k) && k'.closed && !k.closed)
  }

  // A step that the context has no part in, and that leaves less to do.
  ghost predicate Helps(e: Engine, s: PoolState, a: PoolStep) {
    && !a.CtxDone? && CanStep(e, s, a)
    && var s' := Step(e, s, a);
       && s'.ctxDone == s.ctxDone
       && (|s'.input| < |s.input|
           || (s'.input == s.input && TotalWeight(s'.goroutines) < TotalWeight(s.goroutines))
           || (s'.input == s.input && s'.goroutines == s.goroutines && OwesLess(s'.sink, s.sink)))
  }

  // A goroutine that has not stopped can move, or the full queue it waits for makes room.
  lemma GoroutineMoves(e: Engine, outs: nat, s: PoolState, g: nat, net: Network, turns: nat)
    requires SinkOk(outs, s) && g < |s.goroutines| && !s.goroutines[g].Stopped?
    requires forall t :: Run(e.(net := net), t, turns).Done?
    ensures NextOf(s, g, net, turns).Some? && Helps(e, s, NextOf(s, g, net, turns).value)
  {
    if s.goroutines[g].Sending? && !s.ctxDone && !HasRoom(s) {
      Sink.SinkCanMove(s.sink);
    } else {
      var a := NextOf(s, g, net, turns).value;
      SumUpdate(s.goroutines, g, Step(e, s, a).goroutines[g], WeightOf());
    }
  }

  lemma ReachesThen(e: Engine, s: PoolState, a: PoolStep, steps: seq<PoolStep>, s': PoolState)
    requires CanStep(e, s, a) && Reaches(e, Step(e, s, a), steps, s')
    ensures Reaches(e, s, [a] + steps, s')
  {
    assert ([a] + steps)[1..] == steps;
  }

  // With a module that makes progress, on any network, the pool can be brought to its end from
  // any state without the context's help: Run returns, and Close after it.
  lemma PoolCanFinish(e: Engine, rank: State -> nat, outs: nat, s: PoolState, net: Network)
    returns (steps: seq<PoolStep>, s': PoolState)
    requires Progresses(e, rank) && SinkOk(outs, s)
    ensures Reaches(e, s, steps, s') && Finished(s') && s'.ctxDone == s.ctxDone
    ensures forall a :: a in steps ==> !a.CtxDone? && (a.ProbeEnds? ==> a.net == net)
  {
    var turns := 2 * rank(None) + 2;
    forall t
      ensures Run(e.(net := net), t, turns).Done?
    {
      assert forall input :: SafeNext(e.(net := net), input) == SafeNext(e, input);
      Watch.ProbeTerminates(e.(net := net), t, rank);
    }
    steps, s' := FinishWithin(e, outs, s, net, turns);
  }

  lemma PoolMoves(e: Engine, outs: nat, s: PoolState, net: Network, turns: nat) returns (a: PoolStep)
    requires SinkOk(outs, s) && !Finished(s) && forall t :: Run(e.(net := net), t, turns).Done?
    ensures Helps(e, s, a) && (a.ProbeEnds? ==> a.net == net)
  {
    if !AllStopped(s) {
      var g: nat :| g < |s.goroutines| && !s.goroutines[g].Stopped?;
      GoroutineMoves(e, outs, s, g, net, turns);
      a := NextOf(s, g, net, turns).value;
    } else if s.sink.closed {
      Sink.SinkCanMove(s.sink);
      a := SinkMoves(Sink.Next(s.sink).value);
    } else {
      a := CloseSink;
    }
  }

  lemma {:induction false} FinishWithin(e: Engine, outs: nat, s: PoolState, net: Network, turns: nat)
    returns (steps: seq<PoolStep>, s': PoolState)
    requires SinkOk(outs, s) && forall t :: Run(e.(net := net), t, turns).Done?
    ensures Reaches(e, s, steps, s') && Finished(s') && s'.ctxDone == s.ctxDone
    ensures forall a :: a in steps ==> !a.CtxDone? && (a.ProbeEnds? ==> a.net == net)
    decreases |s.input|, TotalWeight(s.goroutines), Sink.Owed(s.sink), if s.sink.closed then 0 else 1
  {
    if Finished(s) {
      return [], s;
    }
    var a := PoolMoves(e, outs, s, net, turns);
    StepKeepsSink(e, outs, s, a);
    steps, s' := FinishWithin(e, outs, Step(e, s, a), net, turns);
    ReachesThen(e, s, a, steps, s');
    steps := [a] + steps;
  }
}
