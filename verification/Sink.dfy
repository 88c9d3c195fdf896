/** The bounded queue that fans records out to every output. */
module Sink {
  import opened ScanTypes

  const DEFAULT_QUEUE_CAPACITY := 100_000

  function Capacity(queueMax: int): (c: nat)
    ensures c > 0 && (queueMax > 0 ==> c == queueMax) && (queueMax <= 0 ==> c == DEFAULT_QUEUE_CAPACITY)
  {
    if queueMax > 0 then queueMax else DEFAULT_QUEUE_CAPACITY
  }

  // The consumer goroutine is between records, or holds one and has written it to the first j outputs.
  datatype Consumer<T> = Waiting | Holding(rec: T, j: nat) | Exited

  // accepted is history: every record that entered the queue, in order. cleaned: outputs cleaned so far.
  datatype SinkState<T> = SinkState(capacity: nat, queue: seq<T>, consumer: Consumer<T>, closed: bool,
                                    written: seq<seq<T>>, cleaned: nat, accepted: seq<T>)

  function NewSink<T>(outs: nat, queueMax: int): SinkState<T> {
    SinkState(Capacity(queueMax), [], Waiting, false, seq(outs, _ => []), 0, [])
  }

  // The atomic steps of Send, the consumer and Close.
  datatype SinkStep<T> = Enqueue(rec: T) | Take | WriteNext | Release | Shut | Exit | CleanNext

  predicate CanStep<T(==)>(s: SinkState<T>, a: SinkStep<T>) {
    match a
    case Enqueue(_) => |s.queue| < s.capacity && !s.closed
    case Take => s.consumer.Waiting? && s.queue != []
    case WriteNext => s.consumer.Holding? && s.consumer.j < |s.written|
    case Release => s.consumer.Holding? && s.consumer.j == |s.written|
    case Shut => !s.closed
    case Exit => s.consumer.Waiting? && s.queue == [] && s.closed
    case CleanNext => s.consumer.Exited? && s.cleaned < |s.written|
  }

  function Step<T>(s: SinkState<T>, a: SinkStep<T>): SinkState<T>
    requires CanStep(s, a)
  {
    match a
    case Enqueue(rec) => s.(queue := s.queue + [rec], accepted := s.accepted + [rec])
    case Take => s.(queue := s.queue[1..], consumer := Holding(s.queue[0], 0))
    case WriteNext =>
      var j := s.consumer.j;
      s.(written := s.written[j := s.written[j] + [s.consumer.rec]], consumer := Holding(s.consumer.rec, j + 1))
    case Release => s.(consumer := Waiting)
    case Shut => s.(closed := true)
    case Exit => s.(consumer := Exited)
    case CleanNext => s.(cleaned := s.cleaned + 1)
  }

  // Records that left the queue and are with every output.
  function Finished<T>(s: SinkState<T>): int {
    |s.accepted| - |s.queue| - if s.consumer.Holding? then 1 else 0
  }

  // How many records output j has: those finished, and the one in hand if its turn has been.
  function Shown<T>(s: SinkState<T>, j: int): int {
    Finished(s) + if s.consumer.Holding? && j < s.consumer.j then 1 else 0
  }

  ghost predicate OutputOk<T>(s: SinkState<T>, j: nat)
    requires j < |s.written|
  {
    0 <= Shown(s, j) <= |s.accepted| && s.written[j] == s.accepted[..Shown(s, j)]
  }

  // Every output holds a prefix of the accepted sequence, and the queue the rest but for the
  // record in hand.
  ghost predicate Refines<T>(s: SinkState<T>) {
    && s.capacity > 0 && |s.queue| <= s.capacity
    && Finished(s) >= 0
    && s.queue == s.accepted[|s.accepted| - |s.queue|..]
    && (s.consumer.Holding? ==> s.consumer.rec == s.accepted[Finished(s)] && s.consumer.j <= |s.written|)
    && (forall j :: 0 <= j < |s.written| ==> OutputOk(s, j))
    && (s.consumer.Exited? ==> s.closed && s.queue == [])
    && (s.cleaned > 0 ==> s.consumer.Exited?) && s.cleaned <= |s.written|
  }

  lemma NewSinkRefines<T>(outs: nat, queueMax: int)
    ensures Refines<T>(NewSink(outs, queueMax))
  {
    var s := NewSink<T>(outs, queueMax);
    forall j: nat | j < |s.written|
      ensures OutputOk(s, j)
    {
      assert s.written[j] == [];
    }
  }

  lemma OutputsStay<T>(s: SinkState<T>, s': SinkState<T>)
    requires forall j :: 0 <= j < |s.written| ==> OutputOk(s, j)
    requires s'.written == s.written && s.accepted <= s'.accepted
    requires forall j :: 0 <= j < |s.written| ==> Shown(s', j) == Shown(s, j)
    ensures forall j :: 0 <= j < |s'.written| ==> OutputOk(s', j)
  {
    forall j: nat | j < |s'.written|
      ensures OutputOk(s', j)
    {
      assert OutputOk(s, j);
    }
  }

  lemma WriteRefines<T>(s: SinkState<T>)
    requires Refines(s) && CanStep(s, WriteNext)
    ensures Refines(Step(s, WriteNext))
  {
    var s', i := Step(s, WriteNext), s.consumer.j;
    forall j: nat | j < |s'.written|
      ensures OutputOk(s', j)
    {
      assert OutputOk(s, j);
      if j == i {
        assert s.accepted[..Finished(s)] + [s.accepted[Finished(s)]] == s.accepted[..Finished(s) + 1];
      }
    }
  }

  lemma EnqueueRefines<T>(s: SinkState<T>, rec: T)
    requires Refines(s) && CanStep(s, Enqueue(rec))
    ensures Refines(Step(s, Enqueue(rec)))
  {
    var s' := Step(s, Enqueue(rec));
    assert s'.queue == s'.accepted[|s'.accepted| - |s'.queue|..];
    OutputsStay(s, s');
  }

  lemma TakeRefines<T>(s: SinkState<T>)
    requires Refines(s) && CanStep(s, Take)
    ensures Refines(Step(s, Take))
  {
    var s' := Step(s, Take);
    assert s.queue[0] == s.accepted[|s.accepted| - |s.queue|];
    assert s'.queue == s'.accepted[|s'.accepted| - |s'.queue|..];
    OutputsStay(s, s');
  }

  lemma StepRefines<T>(s: SinkState<T>, a: SinkStep<T>)
    requires Refines(s) && CanStep(s, a)
    ensures Refines(Step(s, a))
  {
    match a
    case Enqueue(rec) => EnqueueRefines(s, rec);
    case Take => TakeRefines(s);
    case WriteNext => WriteRefines(s);
    case Release => ReleaseRefines(s);
    case _ => OutputsStay(s, Step(s, a));
  }

  lemma ReleaseRefines<T>(s: SinkState<T>)
    requires Refines(s) && CanStep(s, Release)
    ensures Refines(Step(s, Release))
  {
    var s' := Step(s, Release);
    forall j: nat | j < |s'.written|
      ensures OutputOk(s', j)
    {
      assert OutputOk(s, j);
    }
  }

  ghost predicate Reaches<T>(s: SinkState<T>, steps: seq<SinkStep<T>>, s': SinkState<T>)
    decreases |steps|
  {
    if steps == [] then s == s'
    else CanStep(s, steps[0]) && Reaches(Step(s, steps[0]), steps[1..], s')
  }

  lemma {:induction false} ReachesRefines<T>(s: SinkState<T>, steps: seq<SinkStep<T>>, s': SinkState<T>)
    requires Refines(s) && Reaches(s, steps, s')
    ensures Refines(s')
    decreases |steps|
  {
    if steps != [] {
      StepRefines(s, steps[0]);
      ReachesRefines(Step(s, steps[0]), steps[1..], s');
    }
  }

  // Under any interleaving of senders and the consumer: every output holds a prefix of the
  // accepted sequence, no output is ahead of an earlier one, none trails the first by more than
  // one record, the queue keeps within its capacity, and once an output is being cleaned they
  // all hold everything that was ever accepted.
  lemma SinkIsFifoFanOut<T>(outs: nat, queueMax: int, steps: seq<SinkStep<T>>, s: SinkState<T>, i: nat, j: nat)
    requires Reaches(NewSink(outs, queueMax), steps, s) && i <= j < |s.written|
    ensures s.written[j] <= s.written[i] <= s.accepted && |s.written[i]| <= |s.written[j]| + 1
    ensures |s.queue| <= s.capacity
    ensures s.cleaned > 0 ==> s.closed && s.written[i] == s.accepted
  {
    NewSinkRefines<T>(outs, queueMax);
    ReachesRefines(NewSink(outs, queueMax), steps, s);
    OutputsAreOrdered(s, i, j);
  }

  lemma OutputsAreOrdered<T>(s: SinkState<T>, i: nat, j: nat)
    requires Refines(s) && i <= j < |s.written|
    ensures s.written[j] <= s.written[i] <= s.accepted && |s.written[i]| <= |s.written[j]| + 1
    ensures s.cleaned > 0 ==> s.closed && s.written[i] == s.accepted
  {
    assert OutputOk(s, i) && OutputOk(s, j);
    assert s.written[j] == s.written[i][..|s.written[j]|];
  }

  // A sink with nothing queued and nothing in hand has shown every output everything.
  lemma DrainedShowsAll<T>(s: SinkState<T>, j: nat)
    requires Refines(s) && s.queue == [] && !s.consumer.Holding? && j < |s.written|
    ensures s.written[j] == s.accepted
  {
    assert OutputOk(s, j);
  }

  // How many steps the consumer and Close still owe.
  function Owed<T>(s: SinkState<T>): nat {
    |s.queue| * (|s.written| + 2)
    + (match s.consumer
       case Waiting => 1
       case Holding(_, j) => 2 + Max(0, |s.written| - j)
       case Exited => 0)
    + Max(0, |s.written| - s.cleaned)
  }

  // The consumer's next step, if it has one.
  function Next<T>(s: SinkState<T>): Option<SinkStep<T>> {
    match s.consumer
    case Waiting => if s.queue != [] then Some(Take) else if s.closed then Some(Exit) else None
    case Holding(_, j) => if j < |s.written| then Some(WriteNext) else Some(Release)
    case Exited => if s.cleaned < |s.written| then Some(CleanNext) else None
  }

  // A sink that has something queued, or is closed, has a next step until everything is written
  // and cleaned; every such step lowers what is owed and accepts nothing. So Close cannot get
  // stuck and cannot run for ever, and a full queue always makes room.
  lemma SinkCanMove<T>(s: SinkState<T>)
    requires Refines(s) && (s.closed || s.queue != [])
    ensures Next(s).None? <==> s.closed && s.consumer.Exited? && s.cleaned == |s.written|
    ensures Next(s).Some? ==>
              var a := Next(s).value;
              && !a.Enqueue? && !a.Shut? && CanStep(s, a) && Owed(Step(s, a)) < Owed(s)
              && |Step(s, a).written| == |s.written| && Step(s, a).accepted == s.accepted
  {
    if Next(s) == Some(Take) {
      var n := |s.written| + 2;
      assert |s.queue| * n == (|s.queue| - 1) * n + n;
    }
  }

  // ---- The sink as its own goroutine and its callers run it ----

  class OutputSink<T(==)> {
    const capacity: nat
    var queue: seq<T>
    var closed: bool
    var exited: bool
    var written: seq<seq<T>>
    var cleaned: nat
    ghost var accepted: seq<T>

    // The state between two iterations of the consumer loop.
    ghost function Value(): SinkState<T>
      reads this
    {
      SinkState(capacity, queue, if exited then Exited else Waiting, closed, written, cleaned, accepted)
    }

    ghost predicate Valid()
      reads this
    {
      Refines(Value())
    }

    constructor (outs: nat, queueMax: int)
      ensures Valid() && Value() == NewSink(outs, queueMax)
    {
      capacity := if queueMax <= 0 then DEFAULT_QUEUE_CAPACITY else queueMax;
      queue, closed, exited, written, cleaned, accepted := [], false, false, seq(outs, _ => []), 0, [];
      new;
      NewSinkRefines<T>(outs, queueMax);
    }

    // One iteration of the consumer loop: the oldest record goes to every output in turn.
    method Deliver()
      requires Valid() && queue != []
      modifies `queue, `written
      ensures Valid() && queue == old(queue)[1..] && accepted == old(accepted)
      ensures |written| == |old(written)|
    {
      var rec := queue[0];
      ghost var s := Step(Value(), Take);
      StepRefines(Value(), Take);
      queue := queue[1..];
      for j := 0 to |written|
        invariant |written| == |old(written)| && queue == old(queue)[1..]
        invariant Refines(s) && s == Value().(consumer := Holding(rec, j))
      {
        StepRefines(s, WriteNext);
        s := Step(s, WriteNext);
        written := written[j := written[j] + [rec]];
      }
      StepRefines(s, Release);
    }

    // Enqueues rec, waiting for room while the context lives. Once the context is done the
    // select may give up, whether or not there is room: giveUp is its choice.
    method Send(ctxDone: bool, giveUp: bool, rec: T) returns (sent: bool)
      requires Valid() && !closed
      modifies `queue, `written, `accepted
      ensures Valid() && |written| == |old(written)|
      ensures sent <==> !(ctxDone && giveUp)
      ensures accepted == if sent then old(accepted) + [rec] else old(accepted)
    {
      if ctxDone && giveUp {
        return false;
      }
      while |queue| >= capacity
        invariant Valid() && accepted == old(accepted) && |written| == |old(written)|
        decreases |queue|
      {
        Deliver();
      }
      ghost var s := Value();
      StepRefines(s, Enqueue(rec));
      queue, accepted := queue + [rec], accepted + [rec];
      assert Value() == Step(s, Enqueue(rec));
      sent := true;
    }

    // Closes the queue, lets the consumer drain it and exit, then cleans every output once.
    method Close()
      requires Valid() && !closed
      modifies this
      ensures Valid() && closed && exited && queue == []
      ensures accepted == old(accepted) && |written| == |old(written)| == cleaned
      ensures forall j :: 0 <= j < |written| ==> written[j] == accepted
    {
      ghost var s := Value();
      StepRefines(s, Shut);
      closed := true;
      assert Value() == Step(s, Shut);
      while queue != []
        invariant Valid() && closed && !exited && cleaned == 0
        invariant accepted == old(accepted) && |written| == |old(written)|
        decreases |queue|
      {
        Deliver();
      }
      s := Value();
      StepRefines(s, Exit);
      exited := true;
      assert Value() == Step(s, Exit);
      while cleaned < |written|
        invariant Valid() && closed && exited && queue == [] && cleaned <= |written|
        invariant accepted == old(accepted) && |written| == |old(written)|
      {
        s := Value();
        StepRefines(s, CleanNext);
        cleaned := cleaned + 1;
        assert Value() == Step(s, CleanNext);
      }
      forall j: nat | j < |written|
        ensures written[j] == accepted
      {
        DrainedShowsAll(Value(), j);
      }
    }
  }
}
