/** What one turn of a probe does: when it dials again, what a call is told, and how it ends. */
module Turns {
  import opened ScanTypes
  import opened FpModule
  import opened Dial
  import opened Conn
  import opened Exchange
  import opened Probe
  import opened Watch

  // ---- Dialing, and dialing again ----

  // A turn that is not cancelled and whose connect comes up is followed by a call: on that
  // connection, with nothing received, the whole retry budget, and the state it came with.
  lemma DialedIsCalled(e: Engine, t: Target, n: nat, c: Connection)
    requires var s := Run(e, t, n); s.Dialing? && ConnectsAt(e, s.turn, s.host, s.port, c)
    ensures var s, s' := Run(e, t, n), Run(e, t, n + 1);
            && s'.Calling? && (s'.host, s'.port, s'.state, s'.turn) == (s.host, s.port, s.state, s.turn + 1)
            && s'.ip == c.ip && s'.data == "" && s'.packetRcv == 0 && s'.budget == e.retry
            && s'.io.arrivals == c.arrivals && s'.io.sends == c.sends
  {
  }

  // A module that asks to restart, with a network on which that connect comes up, is called again:
  // at the host and port it named, or the current ones where it named none, with the state it
  // handed over, on the new connection, with nothing received and a full retry budget.
  lemma RestartReconnects(e: Engine, t: Target, n: nat, newTarget: string, newPort: int, state: State, c: Connection)
    requires var s := Run(e, t, n);
             && s.Calling?
             && e.next(Input(s.host, s.ip, s.port, e.args, e.maxPkt, s.packetRcv, s.data, s.state))
                == Returns(Restart(newTarget, newPort, state))
             && ConnectsAt(e, s.turn, if newTarget == "" then s.host else newTarget,
                           if newPort == 0 then s.port else newPort, c)
    ensures var s, s' := Run(e, t, n), Run(e, t, n + 2);
            && s'.Calling? && s'.state == state && s'.turn == s.turn + 1
            && s'.host == (if newTarget == "" then s.host else newTarget)
            && s'.port == (if newPort == 0 then s.port else newPort)
            && s'.ip == c.ip && s'.data == "" && s'.packetRcv == 0 && s'.budget == e.retry
            && s'.io.arrivals == c.arrivals && s'.io.sends == c.sends
  {
    assert Run(e, t, n + 1) == Advance(e, t, Run(e, t, n));
    DialedIsCalled(e, t, n + 1, c);
  }

  // ---- How a probe ends ----

  // At the top of the reconnect loop a probe ends exactly if it is cancelled or its connect
  // fails; a refused or reset connect means that the target is up, any other says nothing.
  lemma EndsDialingIff(e: Engine, t: Target, n: nat)
    requires Run(e, t, n).Dialing?
    ensures var s, s' := Run(e, t, n), Run(e, t, n + 1);
            var net := e.net(s.turn, s.host, s.port);
            var dialed := DialFrom(e.dial, net.script, 0, e.dial.connectBackoff).result;
            && (s'.Done? <==> net.cancelled || dialed.Err?)
            && (net.cancelled ==> s'.rec.result == ProbeResult(ErrUnknown, Text("cancelled")))
            && (!net.cancelled && dialed.Err? ==>
                  && s'.rec.result.value == Text(dialed.error.text)
                  && (dialed.error.errno in {ECONNREFUSED, ECONNRESET} ==> s'.rec.result.outcome == ErrUp)
                  && (dialed.error.errno !in {ECONNREFUSED, ECONNRESET} ==> s'.rec.result.outcome == ErrUnknown))
  {
  }

  // After a call a probe ends exactly if the module finishes, or panics, or asked for no packet
  // and received some; and its record holds the module's own result, the panic, or what came.
  lemma EndsCallingIff(e: Engine, t: Target, n: nat)
    requires Run(e, t, n).Calling?
    ensures var s, s' := Run(e, t, n), Run(e, t, n + 1);
            var input := Input(s.host, s.ip, s.port, e.args, e.maxPkt, s.packetRcv, s.data, s.state);
            match e.next(input)
            case Panics(what) => s'.Done? && s'.rec.result == ProbeResult(ErrUnknown, Text("panic in module: " + what))
            case Returns(Finish(result)) => s'.Done? && s'.rec.result == result
            case Returns(Restart(_, _, _)) => s'.Dialing?
            case Returns(Continue(numPackets, payload, state)) =>
              var was := BytesRead(s.io.log);
              && was <= BytesRead(LogOf(s'))
              && var read := BytesRead(LogOf(s'))[|was|..];
                 && (s'.Done? <==> numPackets == 0 && read != "")
                 && (s'.Done? ==>
                       s'.rec.result == ProbeResult(ErrUp, List([Text("toomanypacketreceived"), Text(read)])))
                 && (!s'.Done? ==> s'.Calling? && s'.state == state && s'.data == read)
  {
    var s := Run(e, t, n);
    var step := SafeNext(e, InputFor(e, s));
    if step.Continue? {
      var io := s.io.(log := s.io.log + [Called(InputFor(e, s), step)]);
      OneMoreEvent(s.io.log, Called(InputFor(e, s), step));
      RoundContract(io, step.payload, step.numPackets, s.budget);
      OneMoreEvent(RoundTrip(io, step.payload, step.numPackets, s.budget).io.log, Shut);
    }
  }

  // As long as a probe stays on a connection, what it has read, followed by what the connection
  // has still to deliver, is what it had read when it connected, followed by all that the
  // connection delivers.
  lemma StaysOnItsStream(e: Engine, t: Target, n: nat)
    requires Run(e, t, n).Calling? && Run(e, t, n + 1).Calling?
    ensures Stream(Run(e, t, n + 1).io) == Stream(Run(e, t, n).io)
  {
    CallKeepsStream(e, t, Run(e, t, n));
  }

  lemma CallKeepsStream(e: Engine, t: Target, s: Probing)
    requires s.Calling? && Advance(e, t, s).Calling?
    ensures Stream(Advance(e, t, s).io) == Stream(s.io)
  {
    var step := SafeNext(e, InputFor(e, s));
    EventKeepsStream(s.io, Called(InputFor(e, s), step));
    var io := s.io.(log := s.io.log + [Called(InputFor(e, s), step)]);
    RoundKeepsStream(io, step.payload, step.numPackets, s.budget);
  }

  // ---- The calls in a history ----

  function Calls(log: seq<Event>): seq<Event> {
    if log == [] then []
    else
      var front, last := Calls(log[..|log| - 1]), log[|log| - 1];
      if last.Called? then front + [last] else front
  }

  function Restarts(log: seq<Event>): nat {
    if log == [] then 0
    else Restarts(log[..|log| - 1]) + if log[|log| - 1].Called? && log[|log| - 1].step.Restart? then 1 else 0
  }

  lemma CallsOneMore(log: seq<Event>, ev: Event)
    ensures Calls(log + [ev]) == Calls(log) + if ev.Called? then [ev] else []
    ensures Restarts(log + [ev]) == Restarts(log) + if ev.Called? && ev.step.Restart? then 1 else 0
  {
    assert (log + [ev])[..|log|] == log;
  }

  // Neither calls the module nor undoes any history.
  ghost predicate Quiet(log: seq<Event>, log': seq<Event>) {
    log <= log' && Calls(log') == Calls(log) && Restarts(log') == Restarts(log)
  }

  lemma QuietEvent(log: seq<Event>, ev: Event)
    requires !ev.Called?
    ensures Quiet(log, log + [ev])
  {
    CallsOneMore(log, ev);
  }

  lemma {:induction false} DialIsQuiet(log: seq<Event>, aborted: nat, up: bool)
    ensures Quiet(log, log + DialEvents(aborted, up))
    ensures Opens(log + DialEvents(aborted, up)) == Opens(log) + aborted + if up then 1 else 0
    decreases aborted
  {
    if aborted > 0 {
      QuietEvent(log, Opened);
      QuietEvent(log + [Opened], Shut);
      OpensOneMore(log, Opened);
      OpensOneMore(log + [Opened], Shut);
      DialIsQuiet(log + [Opened] + [Shut], aborted - 1, up);
      assert log + [Opened] + [Shut] + DialEvents(aborted - 1, up) == log + DialEvents(aborted, up);
    } else if up {
      QuietEvent(log, Opened);
      OpensOneMore(log, Opened);
    } else {
      assert log + [] == log;
    }
  }

  lemma OpensOneMore(log: seq<Event>, ev: Event)
    ensures Opens(log + [ev]) == Opens(log) + if ev.Opened? then 1 else 0
  {
    assert (log + [ev])[..|log|] == log;
  }

  lemma TryIsQuiet(io: Io, payload: Bytes)
    ensures Quiet(io.log, Try(io, payload).1.log)
    ensures |io.log| < |Try(io, payload).1.log|
    ensures var sent := Try(io, payload).1.log[|io.log|]; sent.Wrote? && sent.payload == payload
  {
    var (ok, io1) := AfterWrite(io, payload);
    QuietEvent(io.log, Wrote(payload, ok));
    if ok {
      QuietEvent(io1.log, Received(AfterRead(io1).0));
    }
  }

  lemma {:induction false} FirstChunkIsQuiet(io: Io, payload: Bytes, budget: int)
    ensures var log' := FirstChunk(io, payload, budget).1.log;
            && Quiet(io.log, log') && |io.log| < |log'|
            && log'[|io.log|].Wrote? && log'[|io.log|].payload == payload
    decreases Max(budget, 0)
  {
    TryIsQuiet(io, payload);
    var (what, io1) := Try(io, payload);
    if what.ReadFailed? && budget > 0 && payload != "" {
      FirstChunkIsQuiet(io1, payload, budget - 1);
    }
  }

  lemma {:induction false} AccumulateIsQuiet(io: Io, n: int, data: Bytes, packetRcv: nat)
    ensures Quiet(io.log, Accumulate(io, n, data, packetRcv).2.log)
    decreases |io.arrivals|
  {
    if Wanted(n, packetRcv) {
      var (what, io1) := AfterRead(io);
      QuietEvent(io.log, Received(what));
      if what.Chunk? {
        AccumulateIsQuiet(io1, n, data + what.bytes, packetRcv + 1);
      }
    }
  }

  // An exchange starts by writing its payload, whatever comes of it, and calls nobody.
  lemma RoundIsQuiet(io: Io, payload: Bytes, n: int, budget: int)
    ensures var log' := RoundTrip(io, payload, n, budget).io.log;
            && Quiet(io.log, log') && |io.log| < |log'|
            && log'[|io.log|].Wrote? && log'[|io.log|].payload == payload
  {
    FirstChunkIsQuiet(io, payload, budget);
    var (first, io1, _) := FirstChunk(io, payload, budget);
    if first != "" {
      AccumulateIsQuiet(io1, n, first, 1);
      var (data, _, io2) := Accumulate(io1, n, first, 1);
      QuietEvent(io2.log, HardStopped(data));
    }
  }

  // Every call is told the current address and its connection's IP, the configured arguments and
  // packet limit, and what came since the last call; and the n-th connect of a probe is the one
  // its n-th turn finds on the network, at that address.
  lemma CallIsInformed(e: Engine, t: Target, n: nat)
    requires Run(e, t, n).Calling?
    ensures var s := Run(e, t, n);
            && s.turn == Restarts(s.io.log) + 1
            && (exists c :: ConnectsAt(e, s.turn - 1, s.host, s.port, c) && c.ip == s.ip)
            && exists step :: Calls(LogOf(Run(e, t, n + 1))) == Calls(s.io.log)
                 + [Called(Input(s.host, s.ip, s.port, e.args, e.maxPkt, s.packetRcv, s.data, s.state), step)]
  {
    TurnCountsRestarts(e, t, n);
    CallIsLogged(e, t, Run(e, t, n));
  }

  lemma AnswerIsQuiet(e: Engine, t: Target, s: Probing, step: Step)
    requires s.Calling? && SafeNext(e, InputFor(e, s)) == step
    ensures Quiet(s.io.log + [Called(InputFor(e, s), step)], LogOf(Advance(e, t, s)))
  {
    var io := s.io.(log := s.io.log + [Called(InputFor(e, s), step)]);
    if step.Continue? {
      RoundIsQuiet(io, step.payload, step.numPackets, s.budget);
      QuietEvent(RoundTrip(io, step.payload, step.numPackets, s.budget).io.log, Shut);
    } else {
      QuietEvent(io.log, Shut);
    }
  }

  lemma CallIsLogged(e: Engine, t: Target, s: Probing)
    requires s.Calling?
    ensures var s' := Advance(e, t, s);
            var input := Input(s.host, s.ip, s.port, e.args, e.maxPkt, s.packetRcv, s.data, s.state);
            var step := SafeNext(e, input);
            && Calls(LogOf(s')) == Calls(s.io.log) + [Called(input, step)]
            && Restarts(LogOf(s')) == Restarts(s.io.log) + if step.Restart? then 1 else 0
  {
    var step := SafeNext(e, InputFor(e, s));
    AnswerIsQuiet(e, t, s, step);
    CallsOneMore(s.io.log, Called(InputFor(e, s), step));
  }

  ghost predicate TurnOk(e: Engine, s: Probing) {
    && (s.Dialing? ==> s.turn == Restarts(s.log))
    && (s.Calling? ==> s.turn == Restarts(s.io.log) + 1)
    && (s.Calling? ==> exists c :: ConnectsAt(e, s.turn - 1, s.host, s.port, c) && c.ip == s.ip)
  }

  lemma DialKeepsTurn(e: Engine, t: Target, s: Probing)
    requires s.Dialing? && TurnOk(e, s)
    ensures TurnOk(e, Advance(e, t, s))
  {
    var r := DialFrom(e.dial, e.net(s.turn, s.host, s.port).script, 0, e.dial.connectBackoff);
    DialIsQuiet(s.log, r.aborted, r.result.Ok?);
    if !e.net(s.turn, s.host, s.port).cancelled && r.result.Ok? {
      assert ConnectsAt(e, s.turn, s.host, s.port, r.result.value);
    }
  }

  lemma CallKeepsTurn(e: Engine, t: Target, s: Probing)
    requires s.Calling? && TurnOk(e, s)
    ensures TurnOk(e, Advance(e, t, s))
  {
    CallIsLogged(e, t, s);
    ContinueStays(e, t, s);
  }

  lemma {:induction false} TurnCountsRestarts(e: Engine, t: Target, n: nat)
    ensures TurnOk(e, Run(e, t, n))
  {
    if n > 0 {
      TurnCountsRestarts(e, t, n - 1);
      var s := Run(e, t, n - 1);
      if s.Calling? {
        CallKeepsTurn(e, t, s);
      } else if s.Dialing? {
        DialKeepsTurn(e, t, s);
      }
    }
  }

  lemma ContinueStays(e: Engine, t: Target, s: Probing)
    requires s.Calling?
    ensures var s', step := Advance(e, t, s), SafeNext(e, InputFor(e, s));
            && (s'.Calling? ==> (s'.turn, s'.host, s'.port, s'.ip) == (s.turn, s.host, s.port, s.ip) && step.Continue?)
            && (s'.Dialing? ==> s'.turn == s.turn && step.Restart?)
  {
  }
}
