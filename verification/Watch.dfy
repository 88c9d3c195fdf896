/** A reference automaton that reads a probe's history event by event and rejects any breach of
    the engine's discipline, and the proof that it accepts every run of every module. */
module Watch {
  import opened ScanTypes
  import opened FpModule
  import opened Dial
  import opened Conn
  import opened Exchange
  import opened Probe

  // Idle: nothing open. Fresh: a socket nobody has used. Talking: a connection the module has
  // been called on. Leaving: the module asked to reconnect. Ending: it, or the engine, is finished.
  datatype Mode = Idle | Fresh | Talking | Leaving | Ending | Gone

  // carry: bytes read and not yet handed over. chunks: reads that succeeded since the last
  // hand-over. rounds, sent: Continue steps and writes on this connection. tries: writes in
  // this round. verdict: the result the module, or the hard stop, has given.
  datatype Watcher = Watcher(mode: Mode, host: string, port: int, state: State, carry: Bytes, chunks: nat,
                             rounds: nat, sent: nat, payload: Bytes, wanted: int, tries: nat,
                             verdict: Option<ProbeResult>)

  function AtStart(t: Target): Watcher {
    Watcher(Idle, t.host, t.port, None, "", 0, 0, 0, "", 0, 1, None)
  }

  // Every unit of the retry budget of this connection is spent.
  predicate Spent(retry: int, w: Watcher) { w.sent >= w.rounds + Max(0, retry) }

  // A module may be called only after at least one write in the round, and without a chunk only
  // if there was nothing to resend or no budget left to resend it.
  predicate RoundIsOver(retry: int, w: Watcher) {
    w.tries > 0 && (w.mode == Talking && w.chunks == 0 && w.payload != "" ==> Spent(retry, w))
  }

  // One connection at a time, and nothing left over from the last one.
  function OnOpened(w: Watcher): Option<Watcher> {
    if w.mode != Idle || w.carry != "" then None else Some(OnNewConnection(w))
  }

  function OnNewConnection(w: Watcher): Watcher {
    w.(mode := Fresh, chunks := 0, rounds := 0, sent := 0, tries := 1)
  }

  function OnShut(w: Watcher): Option<Watcher> {
    if w.mode in {Idle, Talking, Gone} || w.carry != "" then None
    else Some(w.(mode := if w.mode == Ending then Gone else Idle))
  }

  // Only inside a round, its own payload, never an empty one twice, and within the budget.
  function OnWrote(retry: int, w: Watcher, payload: Bytes): Option<Watcher> {
    if w.mode != Talking || payload != w.payload || (w.tries > 0 && payload == "") || Spent(retry, w) then None
    else Some(w.(sent := w.sent + 1, tries := w.tries + 1))
  }

  function OnReceived(w: Watcher, what: ReadResult): Option<Watcher> {
    if w.mode != Talking || w.tries == 0 then None
    else if what.ReadFailed? then Some(w)
    else Some(w.(carry := w.carry + what.bytes, chunks := w.chunks + 1))
  }

  // Only when nothing was asked for and something came.
  function OnHardStopped(w: Watcher, data: Bytes): Option<Watcher> {
    if w.mode != Talking || w.wanted != 0 || data == "" || data != w.carry then None
    else Some(w.(mode := Ending, carry := "", verdict := Some(TooMany(data))))
  }

  // The module sees the current address, its own last state, and exactly what was read since
  // the last call, in no more packets than it asked for.
  predicate Faithful(w: Watcher, input: Input) {
    && input.target == w.host && input.port == w.port && input.state == w.state && input.data == w.carry
    && input.packetRcv == (if w.carry == "" then 0 else w.chunks)
    && (w.mode == Talking && w.wanted != UNLIMITED ==> input.packetRcv <= Max(1, w.wanted))
    && (w.mode == Talking && w.wanted == 0 ==> input.packetRcv == 0)
  }

  function OnCalled(retry: int, w: Watcher, input: Input, step: Step): Option<Watcher> {
    if w.mode !in {Fresh, Talking} || !RoundIsOver(retry, w) || !Faithful(w, input) then None
    else Some(Answered(w.(carry := "", chunks := 0), step))
  }

  function Answered(w: Watcher, step: Step): Watcher {
    match step
    case Finish(result) => w.(mode := Ending, verdict := Some(result))
    case Restart(newTarget, newPort, state) =>
      w.(mode := Leaving, state := state,
         host := if newTarget != "" then newTarget else w.host, port := if newPort != 0 then newPort else w.port)
    case Continue(numPackets, payload, state) =>
      w.(mode := Talking, state := state, payload := payload, wanted := numPackets, rounds := w.rounds + 1, tries := 0)
  }

  // The next watcher state, or None if the event breaks the discipline.
  function Observe(retry: int, w: Watcher, ev: Event): Option<Watcher> {
    match ev
    case Opened => OnOpened(w)
    case Shut => OnShut(w)
    case Wrote(payload, _) => OnWrote(retry, w, payload)
    case Received(what) => OnReceived(w, what)
    case HardStopped(data) => OnHardStopped(w, data)
    case Called(input, step) => OnCalled(retry, w, input, step)
  }

  function Observed(retry: int, t: Target, log: seq<Event>): Option<Watcher> {
    if log == [] then Some(AtStart(t))
    else
      var w := Observed(retry, t, log[..|log| - 1]);
      if w.None? then None else Observe(retry, w.value, log[|log| - 1])
  }

  lemma ObserveOneMore(retry: int, t: Target, log: seq<Event>, ev: Event)
    ensures Observed(retry, t, log + [ev])
         == if Observed(retry, t, log).None? then None else Observe(retry, Observed(retry, t, log).value, ev)
  {
    assert (log + [ev])[..|log|] == log;
  }

  // How a watcher stands to a probe between two turns.
  ghost predicate Matches(e: Engine, w: Watcher, s: Probing) {
    match s
    case Dialing(host, port, state, _, _) =>
      w.mode == Idle && w.carry == "" && w.host == host && w.port == port && w.state == state
    case Calling(_, _, _, _, _, _, _, budget, _) =>
      && w.mode in {Fresh, Talking} && RoundIsOver(e.retry, w) && Faithful(w, InputFor(e, s))
      && w.sent + Max(0, budget) == w.rounds + Max(0, e.retry)
    case Done(rec, _) =>
      w.mode in {Idle, Gone} && w.carry == "" && (w.mode == Gone ==> w.verdict == Some(rec.result))
  }

  lemma Joined(log: seq<Event>, a: seq<Event>, b: seq<Event>)
    ensures log + a + b == log + (a + b)
  {
  }

  lemma OpenAndShut(retry: int, t: Target, log: seq<Event>, w: Watcher)
    requires Observed(retry, t, log) == Some(w) && w.mode == Idle && w.carry == ""
    ensures Observed(retry, t, log + [Opened, Shut]) == Some(OnNewConnection(w).(mode := Idle))
  {
    var w1 := OnNewConnection(w);
    ObserveOneMore(retry, t, log, Opened);
    assert Observed(retry, t, log + [Opened]) == Some(w1);
    ObserveOneMore(retry, t, log + [Opened], Shut);
    Joined(log, [Opened], [Shut]);
    assert [Opened] + [Shut] == [Opened, Shut];
  }

  lemma {:induction false} DialingIsWatched(retry: int, t: Target, log: seq<Event>, w: Watcher, aborted: nat, up: bool)
    requires Observed(retry, t, log) == Some(w) && w.mode == Idle && w.carry == ""
    ensures var o := Observed(retry, t, log + DialEvents(aborted, up));
            && o.Some?
            && (up ==> o.value == OnNewConnection(w))
            && (!up ==> o.value == w || o.value == OnNewConnection(w).(mode := Idle))
    decreases aborted
  {
    if aborted > 0 {
      var w1 := OnNewConnection(w).(mode := Idle);
      OpenAndShut(retry, t, log, w);
      DialingIsWatched(retry, t, log + [Opened, Shut], w1, aborted - 1, up);
      Joined(log, [Opened, Shut], DialEvents(aborted - 1, up));
    } else if up {
      ObserveOneMore(retry, t, log, Opened);
    } else {
      assert log + [] == log;
    }
  }

  // A watcher that has just seen a Continue step, while the round's first chunk is awaited.
  ghost predicate Awaiting(retry: int, w: Watcher, payload: Bytes, budget: int) {
    && w.mode == Talking && w.carry == "" && w.chunks == 0 && w.payload == payload
    && (w.tries > 0 ==> payload != "")
    && w.sent + Max(0, budget) + 1 == w.rounds + Max(0, retry)
  }

  // One write within the budget, and the read that follows it if it went through.
  lemma TryIsWatched(retry: int, t: Target, io: Io, w: Watcher, payload: Bytes, budget: int)
    requires Observed(retry, t, io.log) == Some(w) && Awaiting(retry, w, payload, budget)
    ensures var (what, io') := Try(io, payload);
            var wrote := w.(sent := w.sent + 1, tries := w.tries + 1);
            Observed(retry, t, io'.log) == Some(if what.Chunk? then wrote.(carry := what.bytes, chunks := 1) else wrote)
  {
    var (ok, io1) := AfterWrite(io, payload);
    ObserveOneMore(retry, t, io.log, Wrote(payload, ok));
    if ok {
      var what := AfterRead(io1).0;
      ObserveOneMore(retry, t, io1.log, Received(what));
      assert what.Chunk? ==> w.carry + what.bytes == what.bytes;
    }
  }

  // Writing until a chunk arrives: every write is within the budget, and what arrived is carried.
  lemma {:induction false} FirstChunkIsWatched(retry: int, t: Target, io: Io, w: Watcher, payload: Bytes, budget: int)
    requires Observed(retry, t, io.log) == Some(w) && Awaiting(retry, w, payload, budget)
    ensures var (chunk, io', budget') := FirstChunk(io, payload, budget);
            var o := Observed(retry, t, io'.log);
            && o.Some?
            && o.value == w.(sent := o.value.sent, tries := o.value.tries, carry := chunk, chunks := o.value.chunks)
            && o.value.chunks <= 1 && (chunk != "" ==> o.value.chunks == 1)
            && RoundIsOver(retry, o.value)
            && o.value.sent + Max(0, budget') == w.rounds + Max(0, retry)
    decreases Max(budget, 0)
  {
    TryIsWatched(retry, t, io, w, payload, budget);
    var (what, io1) := Try(io, payload);
    if what.ReadFailed? && budget > 0 && payload != "" {
      FirstChunkIsWatched(retry, t, io1, w.(sent := w.sent + 1, tries := w.tries + 1), payload, budget - 1);
    }
  }

  lemma {:induction false} AccumulateIsWatched(retry: int, t: Target, io: Io, w: Watcher, n: int,
                                               data: Bytes, packetRcv: nat)
    requires Observed(retry, t, io.log) == Some(w)
    requires w.mode == Talking && w.tries > 0 && w.carry == data && w.chunks == packetRcv > 0
    ensures var (data', packetRcv', io') := Accumulate(io, n, data, packetRcv);
            && Observed(retry, t, io'.log) == Some(w.(carry := data', chunks := packetRcv'))
            && data <= data' && packetRcv <= packetRcv' && (n != UNLIMITED ==> packetRcv' <= Max(packetRcv, n))
    decreases |io.arrivals|
  {
    if Wanted(n, packetRcv) {
      var (what, io1) := AfterRead(io);
      ObserveOneMore(retry, t, io.log, Received(what));
      if what.Chunk? {
        var w1 := w.(carry := data + what.bytes, chunks := packetRcv + 1);
        AccumulateIsWatched(retry, t, io1, w1, n, w1.carry, packetRcv + 1);
      }
    }
  }

  // How the watcher stands after an exchange that ended without a hard stop.
  ghost predicate HandsBack(retry: int, w: Watcher, r: Round, n: int, w': Watcher) {
    && w' == w.(sent := w'.sent, tries := w'.tries, carry := r.data, chunks := w'.chunks)
    && RoundIsOver(retry, w')
    && w'.sent + Max(0, r.budget) == w.rounds + Max(0, retry)
    && r.packetRcv == (if r.data == "" then 0 else w'.chunks)
    && (n != UNLIMITED ==> r.packetRcv <= Max(1, n)) && (n == 0 ==> r.packetRcv == 0)
  }

  ghost predicate ExchangeOk(retry: int, w: Watcher, r: Round, n: int, o: Option<Watcher>) {
    && o.Some?
    && (r.hardStop.Some? ==> o.value.mode == Ending && o.value.carry == "" && o.value.verdict == r.hardStop)
    && (r.hardStop.None? ==> HandsBack(retry, w, r, n, o.value))
  }

  // The reads that follow a first chunk.
  lemma ReadingIsWatched(retry: int, t: Target, io: Io, w: Watcher, first: Bytes, n: int)
    requires Observed(retry, t, io.log) == Some(w) && w.mode == Talking && w.tries > 0 && w.wanted == n
    requires w.carry == first != "" && w.chunks == 1
    ensures var (data, packetRcv, io') := Accumulate(io, n, first, 1);
            && data != "" && packetRcv > 0 && (n != UNLIMITED ==> packetRcv <= Max(1, n))
            && Observed(retry, t, io'.log) == Some(w.(carry := data, chunks := packetRcv))
            && (n == 0 ==>
                  var w' := w.(mode := Ending, carry := "", chunks := packetRcv, verdict := Some(TooMany(data)));
                  Observed(retry, t, io'.log + [HardStopped(data)]) == Some(w'))
  {
    AccumulateIsWatched(retry, t, io, w, n, first, 1);
    var (data, _, io') := Accumulate(io, n, first, 1);
    ObserveOneMore(retry, t, io'.log, HardStopped(data));
  }

  // A whole exchange, from a watcher that has just seen its Continue step.
  lemma ExchangeIsWatched(retry: int, t: Target, io: Io, w: Watcher, payload: Bytes, n: int, budget: int)
    requires Observed(retry, t, io.log) == Some(w) && Awaiting(retry, w, payload, budget) && w.wanted == n
    ensures var r := RoundTrip(io, payload, n, budget);
            ExchangeOk(retry, w, r, n, Observed(retry, t, r.io.log))
  {
    FirstChunkIsWatched(retry, t, io, w, payload, budget);
    var (first, io1, _) := FirstChunk(io, payload, budget);
    if first != "" {
      ReadingIsWatched(retry, t, io1, Observed(retry, t, io1.log).value, first, n);
    }
  }

  lemma ContinueIsWatched(e: Engine, t: Target, s: Probing, w: Watcher, numPackets: int, payload: Bytes, state: State)
    requires s.Calling? && Matches(e, w, s) && Observed(e.retry, t, s.io.log) == Some(w)
    requires SafeNext(e, InputFor(e, s)) == Continue(numPackets, payload, state)
    ensures var s' := Advance(e, t, s); var o := Observed(e.retry, t, LogOf(s')); o.Some? && Matches(e, o.value, s')
  {
    var called := Called(InputFor(e, s), Continue(numPackets, payload, state));
    ObserveOneMore(e.retry, t, s.io.log, called);
    var io1 := s.io.(log := s.io.log + [called]);
    ExchangeIsWatched(e.retry, t, io1, Observed(e.retry, t, io1.log).value, payload, numPackets, s.budget);
    var r := RoundTrip(io1, payload, numPackets, s.budget);
    if r.hardStop.Some? {
      ObserveOneMore(e.retry, t, r.io.log, Shut);
    }
  }

  lemma LeavingIsWatched(e: Engine, t: Target, s: Probing, w: Watcher, step: Step)
    requires s.Calling? && Matches(e, w, s) && Observed(e.retry, t, s.io.log) == Some(w)
    requires SafeNext(e, InputFor(e, s)) == step && !step.Continue?
    ensures var s' := Advance(e, t, s); var o := Observed(e.retry, t, LogOf(s')); o.Some? && Matches(e, o.value, s')
  {
    var called := Called(InputFor(e, s), step);
    ObserveOneMore(e.retry, t, s.io.log, called);
    ObserveOneMore(e.retry, t, s.io.log + [called], Shut);
  }

  lemma AdvanceIsWatched(e: Engine, t: Target, s: Probing, w: Watcher)
    requires Matches(e, w, s) && Observed(e.retry, t, LogOf(s)) == Some(w)
    ensures var s' := Advance(e, t, s); var o := Observed(e.retry, t, LogOf(s')); o.Some? && Matches(e, o.value, s')
  {
    match s
    case Dialing(host, port, _, turn, log) =>
      if !e.net(turn, host, port).cancelled {
        var r := DialFrom(e.dial, e.net(turn, host, port).script, 0, e.dial.connectBackoff);
        DialingIsWatched(e.retry, t, log, w, r.aborted, r.result.Ok?);
      }
    case Calling(_, _, _, _, _, _, _, _, io) =>
      var step := SafeNext(e, InputFor(e, s));
      if step.Continue? {
        ContinueIsWatched(e, t, s, w, step.numPackets, step.payload, step.state);
      } else {
        LeavingIsWatched(e, t, s, w, step);
      }
    case Done(_, _) =>
  }

  // For any module (panicking ones too), any network and any number of turns, the history is
  // accepted, and the watcher stands where the probe stands.
  lemma {:induction false} EveryRunIsAccepted(e: Engine, t: Target, n: nat)
    ensures var o := Observed(e.retry, t, LogOf(Run(e, t, n))); o.Some? && Matches(e, o.value, Run(e, t, n))
  {
    if n > 0 {
      EveryRunIsAccepted(e, t, n - 1);
      AdvanceIsWatched(e, t, Run(e, t, n - 1), Observed(e.retry, t, LogOf(Run(e, t, n - 1))).value);
    }
  }

  // ---- What acceptance means, in plain counts over the history ----

  function Opens(log: seq<Event>): nat {
    if log == [] then 0 else Opens(log[..|log| - 1]) + if log[|log| - 1].Opened? then 1 else 0
  }

  function Shuts(log: seq<Event>): nat {
    if log == [] then 0 else Shuts(log[..|log| - 1]) + if log[|log| - 1].Shut? then 1 else 0
  }

  function Writes(log: seq<Event>): nat {
    if log == [] then 0 else Writes(log[..|log| - 1]) + if log[|log| - 1].Wrote? then 1 else 0
  }

  function Rounds(log: seq<Event>): nat {
    if log == [] then 0
    else Rounds(log[..|log| - 1]) + if log[|log| - 1].Called? && log[|log| - 1].step.Continue? then 1 else 0
  }

  // The bytes the network delivered, and the bytes the module or the hard stop was given.
  function BytesRead(log: seq<Event>): Bytes {
    if log == [] then ""
    else
      var front, last := BytesRead(log[..|log| - 1]), log[|log| - 1];
      if last.Received? && last.what.Chunk? then front + last.what.bytes else front
  }

  function BytesHanded(log: seq<Event>): Bytes {
    if log == [] then ""
    else
      var front, last := BytesHanded(log[..|log| - 1]), log[|log| - 1];
      if last.Called? then front + last.input.data else if last.HardStopped? then front + last.data else front
  }

  lemma {:induction false} AcceptedIsBalanced(retry: int, t: Target, log: seq<Event>)
    requires Observed(retry, t, log).Some?
    ensures Opens(log) == Shuts(log) + if Observed(retry, t, log).value.mode in {Idle, Gone} then 0 else 1
  {
    if log != [] {
      AcceptedIsBalanced(retry, t, log[..|log| - 1]);
    }
  }

  lemma {:induction false} AcceptedConservesBytes(retry: int, t: Target, log: seq<Event>)
    requires Observed(retry, t, log).Some?
    ensures BytesRead(log) == BytesHanded(log) + Observed(retry, t, log).value.carry
  {
    if log != [] {
      AcceptedConservesBytes(retry, t, log[..|log| - 1]);
    }
  }

  // One retry budget is granted with every connection.
  function Granted(retry: int, log: seq<Event>): nat {
    if log == [] then 0 else Granted(retry, log[..|log| - 1]) + if log[|log| - 1].Opened? then Max(0, retry) else 0
  }

  lemma {:induction false} GrantedPerConnection(retry: int, log: seq<Event>)
    ensures Granted(retry, log) == Opens(log) * Max(0, retry)
  {
    if log != [] {
      var front := log[..|log| - 1];
      GrantedPerConnection(retry, front);
      assert (Opens(front) + 1) * Max(0, retry) == Opens(front) * Max(0, retry) + Max(0, retry);
    }
  }

  // What one event does to the counters of this connection.
  lemma ObserveCounts(retry: int, w: Watcher, ev: Event)
    requires Observe(retry, w, ev).Some?
    ensures var w' := Observe(retry, w, ev).value;
            && (ev.Opened? ==> w.mode == Idle && w'.sent == w'.rounds == 0)
            && (!ev.Opened? ==> w'.sent == if ev.Wrote? then w.sent + 1 else w.sent)
            && (!ev.Opened? ==> w'.rounds == if ev.Called? && ev.step.Continue? then w.rounds + 1 else w.rounds)
            && (ev.Wrote? ==> w.sent < w.rounds + Max(0, retry))
            && (w'.mode != Idle ==> w.mode != Idle || ev.Opened?)
            && (ev.Wrote? || ev.Called? ==> w.mode != Idle)
  {
  }

  // Writes on past connections, and on this one, each stay within their rounds plus one budget.
  lemma {:induction false} AcceptedKeepsBudget(retry: int, t: Target, log: seq<Event>)
    requires Observed(retry, t, log).Some?
    ensures var w := Observed(retry, t, log).value;
            var onThis := if Opens(log) == 0 then 0 else Max(0, retry);
            && w.sent <= w.rounds + onThis <= w.rounds + Granted(retry, log)
            && (Writes(log) - w.sent) + onThis <= (Rounds(log) - w.rounds) + Granted(retry, log)
            && (w.mode != Idle ==> Opens(log) > 0)
  {
    if log != [] {
      var front := log[..|log| - 1];
      AcceptedKeepsBudget(retry, t, front);
      ObserveCounts(retry, Observed(retry, t, front).value, log[|log| - 1]);
    }
  }

  // The same, connection by connection: from the moment a connection opens and until the next
  // one does, the writes stay within the Continue rounds plus one retry budget.
  lemma {:induction false} EachConnectionKeepsBudget(retry: int, t: Target, log: seq<Event>, k: nat)
    requires Observed(retry, t, log).Some? && k < |log| && log[k].Opened?
    requires forall i :: k < i < |log| ==> !log[i].Opened?
    ensures var w := Observed(retry, t, log).value;
            && w.sent == Writes(log[k..]) && w.rounds == Rounds(log[k..])
            && Writes(log[k..]) <= Rounds(log[k..]) + Max(0, retry)
    decreases |log|
  {
    var front, last := log[..|log| - 1], log[|log| - 1];
    ObserveCounts(retry, Observed(retry, t, front).value, last);
    if k < |front| {
      EachConnectionKeepsBudget(retry, t, front, k);
      assert log[k..][..|log[k..]| - 1] == front[k..];
    } else {
      assert log[k..] == [last];
    }
  }

  lemma {:induction false} PrefixIsAccepted(retry: int, t: Target, log: seq<Event>, m: nat)
    requires Observed(retry, t, log).Some? && m <= |log|
    ensures Observed(retry, t, log[..m]).Some?
    decreases |log|
  {
    if m < |log| {
      PrefixIsAccepted(retry, t, log[..|log| - 1], m);
      assert log[..|log| - 1][..m] == log[..m];
    } else {
      assert log[..m] == log;
    }
  }

  // In the history of any run, for every stretch that opens a connection and no other after it.
  lemma ConnectionSpendsOneBudget(e: Engine, t: Target, n: nat, k: nat, m: nat)
    requires k < m <= |LogOf(Run(e, t, n))| && LogOf(Run(e, t, n))[k].Opened?
    requires forall i :: k < i < m ==> !LogOf(Run(e, t, n))[i].Opened?
    ensures var part := LogOf(Run(e, t, n))[k..m]; Writes(part) <= Rounds(part) + Max(0, e.retry)
  {
    var log := LogOf(Run(e, t, n));
    EveryRunIsAccepted(e, t, n);
    PrefixIsAccepted(e.retry, t, log, m);
    EachConnectionKeepsBudget(e.retry, t, log[..m], k);
    assert log[..m][k..] == log[k..m];
  }

  // A finished probe closed every connection it opened, handed over every byte it read, in
  // order and once, and wrote at most one payload per Continue plus one retry budget per connection.
  lemma FinishedProbeIsClean(e: Engine, t: Target, n: nat)
    requires Run(e, t, n).Done?
    ensures var log := Run(e, t, n).log;
            && Opens(log) == Shuts(log)
            && BytesRead(log) == BytesHanded(log)
            && Writes(log) <= Rounds(log) + Opens(log) * Max(0, e.retry)
  {
    var log := Run(e, t, n).log;
    EveryRunIsAccepted(e, t, n);
    AcceptedIsBalanced(e.retry, t, log);
    AcceptedConservesBytes(e.retry, t, log);
    AcceptedKeepsBudget(e.retry, t, log);
    GrantedPerConnection(e.retry, log);
  }

  // Whenever a connection opens, its predecessors are all shut and every byte they delivered
  // has been handed over already: nothing crosses from one connection to the next.
  lemma {:induction false} NothingCrossesConnections(retry: int, t: Target, log: seq<Event>, k: nat)
    requires Observed(retry, t, log).Some? && k < |log| && log[k].Opened?
    ensures Opens(log[..k]) == Shuts(log[..k]) && BytesRead(log[..k]) == BytesHanded(log[..k])
  {
    var front := log[..|log| - 1];
    if k == |log| - 1 {
      AcceptedIsBalanced(retry, t, front);
      AcceptedConservesBytes(retry, t, front);
    } else {
      NothingCrossesConnections(retry, t, front, k);
      assert front[..k] == log[..k];
    }
  }

  // The record names the target the probe was given, whatever the module restarted to.
  lemma {:induction false} RecordNamesTheTarget(e: Engine, t: Target, n: nat)
    requires Run(e, t, n).Done?
    ensures var rec := Run(e, t, n).rec; (rec.moduleName, rec.host, rec.port) == (e.moduleName, t.host, t.port)
  {
    if n > 0 && Run(e, t, n - 1).Done? {
      RecordNamesTheTarget(e, t, n - 1);
    }
  }

  // ---- One exchange, exactly ----

  function Chunks(log: seq<Event>): nat {
    if log == [] then 0
    else Chunks(log[..|log| - 1]) + if log[|log| - 1].Received? && log[|log| - 1].what.Chunk? then 1 else 0
  }

  function Reads(log: seq<Event>): nat {
    if log == [] then 0 else Reads(log[..|log| - 1]) + if log[|log| - 1].Received? then 1 else 0
  }

  function WritesThrough(log: seq<Event>): nat {
    if log == [] then 0
    else WritesThrough(log[..|log| - 1]) + if log[|log| - 1].Wrote? && log[|log| - 1].ok then 1 else 0
  }

  function LastIsChunk(log: seq<Event>): bool {
    log != [] && log[|log| - 1].Received? && log[|log| - 1].what.Chunk?
  }

  function LastReadFailed(log: seq<Event>): bool {
    log != [] && log[|log| - 1] == Received(ReadFailed)
  }

  lemma OneMoreEvent(log: seq<Event>, ev: Event)
    ensures Writes(log + [ev]) == Writes(log) + if ev.Wrote? then 1 else 0
    ensures Chunks(log + [ev]) == Chunks(log) + if ev.Received? && ev.what.Chunk? then 1 else 0
    ensures Reads(log + [ev]) == Reads(log) + if ev.Received? then 1 else 0
    ensures WritesThrough(log + [ev]) == WritesThrough(log) + if ev.Wrote? && ev.ok then 1 else 0
    ensures BytesRead(log + [ev])
         == if ev.Received? && ev.what.Chunk? then BytesRead(log) + ev.what.bytes else BytesRead(log)
  {
    assert (log + [ev])[..|log|] == log;
  }

  lemma TryCounts(io: Io, payload: Bytes)
    ensures var (what, io') := Try(io, payload);
            && Writes(io'.log) == Writes(io.log) + 1
            && Reads(io'.log) - Reads(io.log) == WritesThrough(io'.log) - WritesThrough(io.log)
            && Chunks(io'.log) == Chunks(io.log) + (if what.Chunk? then 1 else 0)
            && BytesRead(io'.log) == (if what.Chunk? then BytesRead(io.log) + what.bytes else BytesRead(io.log))
            && LastIsChunk(io'.log) == what.Chunk?
  {
    var (ok, io1) := AfterWrite(io, payload);
    OneMoreEvent(io.log, Wrote(payload, ok));
    if ok {
      OneMoreEvent(io1.log, Received(AfterRead(io1).0));
    }
  }

  // A round writes once, plus once for every unit of budget it spends; an empty payload spends
  // none; a round that stops without a chunk had none left to spend; and what it hands on is
  // what it read, one successful read at most.
  lemma {:induction false} RoundSpendsBudget(io: Io, payload: Bytes, budget: int)
    ensures var (chunk, io', budget') := FirstChunk(io, payload, budget);
            && budget' <= budget && (budget' < budget ==> budget' >= 0 && payload != "")
            && Writes(io'.log) == Writes(io.log) + 1 + (budget - budget')
            && Reads(io'.log) - Reads(io.log) == WritesThrough(io'.log) - WritesThrough(io.log)
            && (!LastIsChunk(io'.log) ==> chunk == "" && (budget' <= 0 || payload == ""))
            && BytesRead(io'.log) == BytesRead(io.log) + chunk
            && Chunks(io'.log) == Chunks(io.log) + if LastIsChunk(io'.log) then 1 else 0
    decreases Max(budget, 0)
  {
    TryCounts(io, payload);
    var (what, io1) := Try(io, payload);
    if what.ReadFailed? && budget > 0 && payload != "" {
      RoundSpendsBudget(io1, payload, budget - 1);
    }
  }

  lemma TailSplits(data: Bytes, bytes: Bytes, data': Bytes, before: Bytes, after: Bytes)
    requires data + bytes <= data' && after == before + bytes + data'[|data + bytes|..]
    ensures data <= data' && after == before + data'[|data|..]
  {
    assert data'[|data|..] == bytes + data'[|data + bytes|..];
  }

  lemma {:induction false} AccumulateDelivers(io: Io, n: int, data: Bytes, packetRcv: nat)
    ensures var (data', packetRcv', io') := Accumulate(io, n, data, packetRcv);
            && data <= data' && BytesRead(io'.log) == BytesRead(io.log) + data'[|data|..]
            && packetRcv <= packetRcv' && Chunks(io'.log) - Chunks(io.log) == packetRcv' - packetRcv
            && (n != UNLIMITED ==> packetRcv' <= Max(packetRcv, n))
            && (n == UNLIMITED || packetRcv' < n ==> LastReadFailed(io'.log))
            && Reads(io'.log) - Reads(io.log)
               == packetRcv' - packetRcv + if n == UNLIMITED || packetRcv' < n then 1 else 0
    decreases |io.arrivals|
  {
    if Wanted(n, packetRcv) {
      var (what, io1) := AfterRead(io);
      OneMoreEvent(io.log, Received(what));
      if what.Chunk? {
        var data1 := data + what.bytes;
        AccumulateDelivers(io1, n, data1, packetRcv + 1);
        var (data', _, io') := Accumulate(io1, n, data1, packetRcv + 1);
        TailSplits(data, what.bytes, data', BytesRead(io.log), BytesRead(io'.log));
      }
    }
  }

  // What the reads after a first chunk add up to.
  lemma ReadingDelivers(io: Io, first: Bytes, n: int)
    requires first != ""
    ensures var (data, packetRcv, io') := Accumulate(io, n, first, 1);
            && first <= data && first + data[|first|..] == data
            && BytesRead(io'.log) == BytesRead(io.log) + data[|first|..] == BytesRead(io'.log + [HardStopped(data)])
            && packetRcv >= 1 && Chunks(io'.log) == Chunks(io.log) + packetRcv - 1
            && (n >= 1 ==> packetRcv <= n)
            && (n == UNLIMITED || packetRcv < n ==> LastReadFailed(io'.log))
            && Reads(io'.log) - Reads(io.log) == packetRcv - 1 + if n == UNLIMITED || packetRcv < n then 1 else 0
  {
    AccumulateDelivers(io, n, first, 1);
    var (data, _, io') := Accumulate(io, n, first, 1);
    OneMoreEvent(io'.log, HardStopped(data));
  }

  // An exchange hands back, in order, all the bytes it read, through the hard stop if nothing
  // was asked for. It counts a packet exactly when it hands back data: one per successful read,
  // never more than asked for, and fewer only after a failed read.
  lemma RoundContract(io: Io, payload: Bytes, n: int, budget: int)
    ensures var r := RoundTrip(io, payload, n, budget);
            && BytesRead(io.log) <= BytesRead(r.io.log)
            && var read := BytesRead(r.io.log)[|BytesRead(io.log)|..];
               && r.hardStop == (if n == 0 && read != "" then Some(TooMany(read)) else None)
               && r.data == (if n == 0 then "" else read)
               && (r.packetRcv >= 1 <==> r.data != "")
               && (r.data != "" ==> Chunks(r.io.log) == Chunks(io.log) + r.packetRcv)
               && (n >= 1 ==> r.packetRcv <= n)
               && (r.data != "" && (n == UNLIMITED || r.packetRcv < n) ==> LastReadFailed(r.io.log))
               && (n >= 1 && r.data != "" ==> r.packetRcv == n || LastReadFailed(r.io.log))
  {
    RoundSpendsBudget(io, payload, budget);
    var (first, io1, _) := FirstChunk(io, payload, budget);
    if first != "" {
      ReadingDelivers(io1, first, n);
      var (data, _, io2) := Accumulate(io1, n, first, 1);
      AppendedTail(BytesRead(io.log), first, data[|first|..], data, BytesRead(io2.log));
    } else {
      assert BytesRead(io1.log) == BytesRead(io.log);
    }
  }

  lemma AppendedTail(before: Bytes, first: Bytes, rest: Bytes, data: Bytes, after: Bytes)
    requires first + rest == data && before + first + rest == after
    ensures before <= after && after[|before|..] == data
  {
  }

  // ---- What the network delivered ----

  // All the bytes in a connection's reads, those that came with an error included.
  function BytesIn(arrivals: seq<RawRead>): Bytes {
    if arrivals == [] then ""
    else if arrivals[0].Arrived? then arrivals[0].bytes + BytesIn(arrivals[1..])
    else BytesIn(arrivals[1..])
  }

  // What was read so far, followed by what is still to come.
  function Stream(io: Io): Bytes { BytesRead(io.log) + BytesIn(io.arrivals) }

  lemma EventKeepsStream(io: Io, ev: Event)
    requires !ev.Received?
    ensures Stream(io.(log := io.log + [ev])) == Stream(io)
  {
    OneMoreEvent(io.log, ev);
  }

  lemma ReadKeepsStream(io: Io)
    ensures Stream(AfterRead(io).1) == Stream(io)
  {
    OneMoreEvent(io.log, Received(AfterRead(io).0));
  }

  lemma TryKeepsStream(io: Io, payload: Bytes)
    ensures Stream(Try(io, payload).1) == Stream(io)
  {
    var (ok, io1) := AfterWrite(io, payload);
    OneMoreEvent(io.log, Wrote(payload, ok));
    if ok {
      ReadKeepsStream(io1);
    }
  }

  lemma {:induction false} FirstChunkKeepsStream(io: Io, payload: Bytes, budget: int)
    ensures Stream(FirstChunk(io, payload, budget).1) == Stream(io)
    decreases Max(budget, 0)
  {
    TryKeepsStream(io, payload);
    var (what, io1) := Try(io, payload);
    if what.ReadFailed? && budget > 0 && payload != "" {
      FirstChunkKeepsStream(io1, payload, budget - 1);
    }
  }

  lemma {:induction false} AccumulateKeepsStream(io: Io, n: int, data: Bytes, packetRcv: nat)
    ensures Stream(Accumulate(io, n, data, packetRcv).2) == Stream(io)
    decreases |io.arrivals|
  {
    if Wanted(n, packetRcv) {
      ReadKeepsStream(io);
      var (what, io1) := AfterRead(io);
      if what.Chunk? {
        AccumulateKeepsStream(io1, n, data + what.bytes, packetRcv + 1);
      }
    }
  }

  // Through a whole exchange what was read, followed by what the connection has still to
  // deliver, stays the same: the bytes read are those delivered next, none left out, none twice.
  lemma RoundKeepsStream(io: Io, payload: Bytes, n: int, budget: int)
    ensures Stream(RoundTrip(io, payload, n, budget).io) == Stream(io)
  {
    FirstChunkKeepsStream(io, payload, budget);
    var (first, io1, _) := FirstChunk(io, payload, budget);
    if first != "" {
      AccumulateKeepsStream(io1, n, first, 1);
      var (data, _, io2) := Accumulate(io1, n, first, 1);
      EventKeepsStream(io2, HardStopped(data));
    }
  }

  // ---- Termination ----

  // With a module whose state rank falls on every step, a probe is finished after at most two
  // turns per unit of rank and two more.
  lemma {:induction false} RankBoundsTurns(e: Engine, t: Target, rank: State -> nat, n: nat)
    requires Progresses(e, rank)
    ensures var s := Run(e, t, n);
            && (s.Dialing? ==> n + 2 * rank(s.state) <= 2 * rank(None))
            && (s.Calling? ==> n + 2 * rank(s.state) <= 2 * rank(None) + 1)
  {
    if n > 0 {
      RankBoundsTurns(e, t, rank, n - 1);
      var s := Run(e, t, n - 1);
      if s.Calling? {
        var step := SafeNext(e, InputFor(e, s));
        assert !step.Finish? ==> rank(step.state) < rank(InputFor(e, s).state);
      }
    }
  }

  lemma ProbeTerminates(e: Engine, t: Target, rank: State -> nat)
    requires Progresses(e, rank)
    ensures Run(e, t, 2 * rank(None) + 2).Done?
  {
    RankBoundsTurns(e, t, rank, 2 * rank(None) + 2);
  }
}
