/** Driving one target through a module: dial, call, exchange, reconnect, finish. */
module Probe {
  import opened ScanTypes
  import opened FpModule
  import opened Dial
  import opened Conn
  import opened Exchange

  // What happens at one turn of the reconnect loop: the k-th, and the host and port it dials.
  datatype Reconnect = Reconnect(cancelled: bool, script: Script)

  type Network = (nat, string, int) -> Reconnect

  // An engine's settings, its module, and the network it meets; module and network are arbitrary.
  datatype Engine = Engine(moduleName: string, next: Input -> Reply, args: seq<string>, maxPkt: int, retry: int,
                           dial: DialConfig, net: Network)

  datatype Probing =
    | Dialing(host: string, port: int, state: State, turn: nat, log: seq<Event>)
    | Calling(host: string, port: int, state: State, turn: nat, ip: string,
              data: Bytes, packetRcv: nat, budget: int, io: Io)
    | Done(rec: Record, log: seq<Event>)

  function SafeNext(e: Engine, input: Input): Step {
    match e.next(input)
    case Returns(step) => step
    case Panics(what) => Fails(ErrUnknown, "panic in module: " + what)
  }

  function RecordFor(e: Engine, t: Target, r: ProbeResult): Record {
    Record(e.moduleName, t.host, t.port, r)
  }

  // Sockets that came up and were closed again by a failed handshake, then the one that stayed, if any.
  function DialEvents(aborted: nat, up: bool): seq<Event> {
    if aborted == 0 then (if up then [Opened] else [])
    else [Opened, Shut] + DialEvents(aborted - 1, up)
  }

  function InputFor(e: Engine, s: Probing): Input
    requires s.Calling?
  {
    Input(s.host, s.ip, s.port, e.args, e.maxPkt, s.packetRcv, s.data, s.state)
  }

  // One turn of the reconnect loop, or one turn of the callback loop inside it.
  function Advance(e: Engine, t: Target, s: Probing): Probing {
    match s
    case Dialing(host, port, state, turn, log) =>
      if e.net(turn, host, port).cancelled then Done(RecordFor(e, t, ProbeResult(ErrUnknown, Text("cancelled"))), log)
      else
        var r := DialFrom(e.dial, e.net(turn, host, port).script, 0, e.dial.connectBackoff);
        var log1 := log + DialEvents(r.aborted, r.result.Ok?);
        if r.result.Err? then Done(RecordFor(e, t, ClassifyConnectErr(r.result.error)), log1)
        else
          var c := r.result.value;
          Calling(host, port, state, turn + 1, c.ip, "", 0, e.retry, Io(c.arrivals, c.sends, log1))
    case Calling(host, port, _, turn, ip, _, _, budget, io) =>
      var input := InputFor(e, s);
      var step := SafeNext(e, input);
      var io1 := io.(log := io.log + [Called(input, step)]);
      (match step
       case Finish(result) => Done(RecordFor(e, t, result), io1.log + [Shut])
       case Restart(newTarget, newPort, state) =>
         Dialing(if newTarget != "" then newTarget else host, if newPort != 0 then newPort else port,
                 state, turn, io1.log + [Shut])
       case Continue(numPackets, payload, state) =>
         var r := RoundTrip(io1, payload, numPackets, budget);
         if r.hardStop.Some? then Done(RecordFor(e, t, r.hardStop.value), r.io.log + [Shut])
         else Calling(host, port, state, turn, ip, r.data, r.packetRcv, r.budget, r.io))
    case Done(_, _) => s
  }

  // Turn number turn of the reconnect loop, dialing host and port, comes up with connection c.
  predicate ConnectsAt(e: Engine, turn: nat, host: string, port: int, c: Connection) {
    && !e.net(turn, host, port).cancelled
    && DialFrom(e.dial, e.net(turn, host, port).script, 0, e.dial.connectBackoff).result == Ok(c)
  }

  function LogOf(s: Probing): seq<Event> {
    if s.Calling? then s.io.log else s.log
  }

  // The probe of t after n turns. A module that never finishes never reaches Done.
  function Run(e: Engine, t: Target, n: nat): Probing {
    if n == 0 then Dialing(t.host, t.port, None, 0, []) else Advance(e, t, Run(e, t, n - 1))
  }

  // A module that makes progress: every step that asks to be called again lowers its state's rank.
  ghost predicate Progresses(e: Engine, rank: State -> nat) {
    forall input :: var step := SafeNext(e, input);
      (!step.Finish? ==> rank(step.state) < rank(input.state))
  }

  lemma {:induction false} DoneStaysDone(e: Engine, t: Target, n: nat, turns: nat)
    requires n <= turns && Run(e, t, n).Done?
    ensures Run(e, t, turns) == Run(e, t, n)
    decreases turns
  {
    if n < turns {
      DoneStaysDone(e, t, n, turns - 1);
    }
  }

  // The probe is over after so many turns at the latest.
  ghost predicate EndsBy(e: Engine, t: Target, turns: nat) {
    forall n :: n >= turns ==> Run(e, t, n).Done?
  }

  lemma OnceDoneEndsBy(e: Engine, t: Target, turns: nat)
    ensures EndsBy(e, t, turns) <==> Run(e, t, turns).Done?
  {
    if Run(e, t, turns).Done? {
      forall n | n >= turns
        ensures Run(e, t, n).Done?
      {
        DoneStaysDone(e, t, turns, n);
      }
    }
  }

  // How the callback loop on one connection leaves: for another connection, or with a record.
  datatype Parting = Reconnects(host: string, port: int, state: State) | Ends(rec: Record)

  function Parted(p: Parting, turn: nat, log: seq<Event>): Probing {
    match p
    case Reconnects(host, port, state) => Dialing(host, port, state, turn, log)
    case Ends(rec) => Done(rec, log)
  }

  // The callback loop: calls the module and exchanges packets until the module, or a hard stop,
  // is through with this connection, which is then closed.
  method Converse(e: Engine, t: Target, conn: LiveConn, ctarget: string, cport: int, ip: string, carried: State,
                  turn: nat, ghost from: nat, ghost turns: nat) returns (parting: Parting, ghost n: nat)
    requires !conn.closed && EndsBy(e, t, turns)
    requires Run(e, t, from) == Calling(ctarget, cport, carried, turn, ip, "", 0, e.retry, conn.Value())
    modifies conn
    ensures conn.closed && from < n <= turns && Run(e, t, n) == Parted(parting, turn, conn.log)
    ensures parting.Ends? ==> parting.rec == RecordFor(e, t, parting.rec.result)
  {
    var retryBudget, data, state := e.retry, "", carried;
    var packetRcv: nat := 0;
    n := from;
    while true
      invariant !conn.closed && from <= n
      invariant Run(e, t, n) == Calling(ctarget, cport, state, turn, ip, data, packetRcv, retryBudget, conn.Value())
      decreases turns - n
    {
      var input := Input(ctarget, ip, cport, e.args, e.maxPkt, packetRcv, data, state);
      var step := SafeNext(e, input);
      conn.Note(Called(input, step));
      n := n + 1;
      match step {
        case Finish(result) =>
          conn.Close();
          return Ends(RecordFor(e, t, result)), n;
        case Restart(newTarget, newPort, next) =>
          conn.Close();
          parting := Reconnects(if newTarget != "" then newTarget else ctarget,
                                if newPort != 0 then newPort else cport, next);
          return;
        case Continue(numPackets, payload, next) =>
          state := next;
          var hardStop;
          data, packetRcv, hardStop, retryBudget := SendRecv(conn, payload, numPackets, retryBudget);
          if hardStop.Some? {
            conn.Close();
            return Ends(RecordFor(e, t, hardStop.value)), n;
          }
      }
    }
  }

  // The top of the reconnect loop: a live connection, or the record of a probe that got none.
  method Connect(e: Engine, t: Target, ctarget: string, cport: int, state: State, turn: nat,
                 ghost n: nat, ghost sofar: seq<Event>)
    returns (r: Result<Connection, Record>, ghost log: seq<Event>)
    requires Run(e, t, n) == Dialing(ctarget, cport, state, turn, sofar)
    ensures r.Ok? ==> Run(e, t, n + 1) == Calling(ctarget, cport, state, turn + 1, r.value.ip, "", 0, e.retry,
                                                  Io(r.value.arrivals, r.value.sends, log))
    ensures r.Err? ==> Run(e, t, n + 1) == Done(r.error, log) && r.error == RecordFor(e, t, r.error.result)
  {
    if e.net(turn, ctarget, cport).cancelled {
      return Err(RecordFor(e, t, ProbeResult(ErrUnknown, Text("cancelled")))), sofar;
    }
    var dialed := DialWithRetry(e.dial, e.net(turn, ctarget, cport).script);
    log := sofar + DialEvents(dialed.aborted, dialed.result.Ok?);
    if dialed.result.Err? {
      return Err(RecordFor(e, t, ClassifyConnectErr(dialed.result.error))), log;
    }
    r := Ok(dialed.result.value);
  }

  // A module that never finishes keeps its goroutine for ever, so the one demand is that the
  // step-wise probe ends at all, after however many turns.
  method ProbeOne(e: Engine, t: Target, ghost turns: nat) returns (rec: Record, ghost log: seq<Event>)
    requires EndsBy(e, t, turns)
    // Whatever the module restarted to, the record names the target it was given.
    ensures rec.host == t.host && rec.port == t.port && rec.moduleName == e.moduleName
    ensures exists n :: Run(e, t, n) == Done(rec, log)
  {
    var ctarget, cport, state, turn := t.host, t.port, None, 0;
    ghost var n := 0;
    log := [];
    while true
      invariant Run(e, t, n) == Dialing(ctarget, cport, state, turn, log)
      decreases turns - n
    {
      var r;
      r, log := Connect(e, t, ctarget, cport, state, turn, n, log);
      if r.Err? {
        return r.error, log;
      }
      var conn := new LiveConn(r.value, log);
      turn := turn + 1;
      var parting;
      parting, n := Converse(e, t, conn, ctarget, cport, r.value.ip, state, turn, n + 1, turns);
      log := conn.log;
      if parting.Ends? {
        rec := parting.rec;
        return;
      }
      ctarget, cport, state := parting.host, parting.port, parting.state;
    }
  }
}
